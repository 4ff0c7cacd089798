// The authorization flow of internal/oidc as a state machine. Every storage call of a handler is
// one step; between its calls a handler keeps its place in a worker's hand, where a crash can
// lose it. The database part of a step is the table function of that call. The rest of the
// machine only remembers: which request each row or hand belongs to, what the request asked for,
// who consented, what connectors asserted and which addresses were proved by a code.
module AuthorizationFlow {
  import opened Common
  import opened RefreshFamilies
  import opened FlowTables
  import opened OtpTables
  import opened Database

  // oidc.OAuthState: what a handler knows of the flow it serves.
  datatype Context = Context(
    flowId: string, connectorId: string, clientId: string, redirectUri: string, codeChallenge: string, nonce: string,
    oidcState: string, scopes: string, refreshMode: string, authTime: int, offlineConsent: bool, purpose: string,
    dpopJkt: string, pushed: bool)

  // What was asked for in the first place.
  datatype Origin = Origin(
    clientId: string, redirectUri: string, codeChallenge: string, nonce: string, oidcState: string, scopes: string,
    refreshMode: string, authTime: int, purpose: string, dpopJkt: string)

  datatype Request =
    | Waiting(request: PushedRequest)
    | Running(origin: Origin, pushed: Option<PushedRequest>)

  // Everything that can stand for a request at one time, and the code it ends in.
  datatype Holder =
    | PushedRow(uri: string)
    | StateRow(token: string)
    | ChallengeRow(id: string)
    | Worker(w: nat)
    | Issued(code: string)

  // A handler between two of its storage calls, while no row stands for its request.
  datatype Hand =
    | Parking(x: Context)
    | Asserting(x: Context, connectorId: string, subject: string, email: Email)
    | Accepting(x: Context, connectorId: string, subject: string, address: string, local: bool, verified: bool)
    | Challenging(x: Context, connectorId: string, subject: string, address: string)
    | Proving(x: Context, connectorId: string, subject: string, address: string)
    | Completing(x: Context, subject: string, address: string, verified: bool)

  // A handler that knows of a state row without having taken it.
  datatype Visit =
    | CallingBack(token: string, connectorId: string)
    | Picking(token: string, connectorId: string, subject: string, email: Email)

  // kinds gives the type of each login connector, sole the only one if there is just one and it
  // is not an email connector, normal the addresses that can be normalized, with their normal form.
  datatype Config = Config(kinds: map<string, string>, sole: Option<string>, normal: map<string, string>, mode: string,
    mailer: bool)

  datatype Log = Log(
    requests: map<nat, Request>, next: nat, consented: set<nat>, used: set<string>, asserted: set<Identity>,
    proved: set<Identity>)

  // tags says which request each holder stands for; issued and answered keep every code ever
  // issued and every code tokens were given for.
  datatype Machine = Machine(
    db: Db, hands: map<nat, Hand>, visits: map<nat, Visit>, tags: map<Holder, nat>, log: Log,
    issued: map<string, AuthCode>, answered: seq<string>)

  const START := Machine(
    Db(Families(map[], map[]), Flow(map[], map[], map[], map[], map[], map[], map[]), Otp(map[], map[], 0)),
    map[], map[], map[], Log(map[], 0, {}, {}, {}, {}), map[], [])

  const STATE_TTL := 10 * MINUTE
  const CODE_TTL := 5 * MINUTE
  const SELECTION_TTL := 5 * MINUTE

  // ---- Moving a flow between its representations ----------------------------------------------

  // EncodeState.
  function Stored(x: Context, now: int): OAuthState {
    OAuthState(x.clientId, x.redirectUri, x.codeChallenge, x.nonce, x.oidcState, now, now + STATE_TTL, x.connectorId,
               x.scopes, x.refreshMode, x.authTime, x.offlineConsent, x.purpose, x.dpopJkt, x.pushed)
  }

  // oauthStateFromStored.
  function Decoded(token: string, s: OAuthState): Context {
    Context(token, s.connectorId, s.clientId, s.redirectUri, s.codeChallenge, s.nonce, s.oidcState, s.scopes,
            s.refreshMode, s.authTime, s.offlineConsent, s.purpose, s.dpopJkt, s.pushed)
  }

  // beginOTP.
  function Challenged(x: Context, connectorId: string, subject: string, email: string): OtpFlow {
    OtpFlow(x.flowId, connectorId, subject, email, x.clientId, x.redirectUri, x.codeChallenge, x.nonce, x.oidcState,
            x.scopes, x.refreshMode, x.authTime, x.offlineConsent, x.purpose, x.dpopJkt, x.pushed)
  }

  // HandleEmailVerify.
  function Resumed(f: OtpFlow): Context {
    Context(f.flowId, f.connectorId, f.clientId, f.redirectUri, f.codeChallenge, f.nonce, f.oidcState, f.scopes,
            f.refreshMode, f.authTime, f.offlineConsent, f.purpose, f.dpopJkt, f.pushed)
  }

  // complete.
  function CodeFor(x: Context, subject: string, email: string, verified: bool, now: int): AuthCode {
    AuthCode(x.clientId, x.redirectUri, x.codeChallenge, email, verified, x.nonce, now, now + CODE_TTL, x.scopes,
             x.refreshMode, x.authTime, x.connectorId, subject, x.offlineConsent, x.dpopJkt, x.pushed)
  }

  function Opening(o: Origin, pushed: bool): Context {
    Context("", "", o.clientId, o.redirectUri, o.codeChallenge, o.nonce, o.oidcState, o.scopes, o.refreshMode,
      o.authTime,
            false, o.purpose, o.dpopJkt, pushed)
  }

  predicate Contains(s: string, part: string) {
    exists i :: 0 <= i <= |s| && part <= s[i..]
  }

  predicate OfflineScope(scopes: string) {
    Contains(" " + scopes + " ", " offline_access ")
  }

  function ModeOf(scopes: string, refreshEnabled: bool): string {
    if OfflineScope(scopes) then "offline" else if refreshEnabled then "session" else ""
  }

  // continueAuthorization: straight to the only connector, unless the user is to sign up.
  function Continued(cfg: Config, x: Context): Context {
    if cfg.sole.Some? && x.purpose != "authorize_create" then x.(connectorId := cfg.sole.value) else x
  }

  // ---- The pages that take a state row ----------------------------------------------------------

  datatype Page =
    | ConsentPage(accept: bool)
    | SelectPage(connectorId: string)
    | ContinuePage
    | EmailPage(connectorId: string, address: string, challengePassed: bool)
    | CallbackPage(subject: string, email: Email)
    | IdentityPage

  // What a page does with the flow it has taken; None ends it.
  function Serve(cfg: Config, page: Page, x: Context, visit: Option<Visit>): Option<Hand> {
    match page
    case ConsentPage(accept) =>
      if x.refreshMode == "offline" && accept then Some(Parking(Continued(cfg, x.(offlineConsent := true)))) else None
    case SelectPage(id) =>
      if x.connectorId == "" && id in cfg.kinds && cfg.kinds[id] != "email" then
        Some(Parking(x.(connectorId := id))) else None
    case ContinuePage =>
      if cfg.sole.Some? then Some(Parking(x.(connectorId := cfg.sole.value))) else None
    case EmailPage(id, address, passed) =>
      if x.connectorId == "" && id in cfg.kinds && cfg.kinds[id] == "email" && passed && address in cfg.normal then
        Some(Challenging(x.(connectorId := id), id, cfg.normal[address], cfg.normal[address]))
      else None
    case CallbackPage(subject, email) =>
      if visit.Some? && visit.value.CallingBack? then
        Some(Asserting(x, visit.value.connectorId, subject, email)) else None
    case IdentityPage =>
      if visit.Some? && visit.value.Picking? && x.connectorId == visit.value.connectorId then
        Some(Asserting(x, visit.value.connectorId, visit.value.subject, visit.value.email))
      else None
  }

  // verificationAccepted.
  predicate VerificationAccepted(mode: string, providerVerified: bool, localVerified: bool) {
    mode == "disabled" || localVerified || (mode == "provider" && providerVerified)
  }

  // acceptOrChallenge, from the identity it is given and what is on record for it.
  function Judge(cfg: Config, flow: Flow, h: Hand): Option<Hand>
    requires h.Asserting?
  {
    if h.email.address !in cfg.normal then None
    else
      var address := cfg.normal[h.email.address];
      var id := Identity(h.connectorId, h.subject, address);
      var local := LocallyVerified(flow, id);
      if VerificationAccepted(cfg.mode, h.email.verified, local) then
        if id !in flow.accepted || h.email.verified then
          Some(Accepting(h.x, h.connectorId, h.subject, address, local, local || h.email.verified))
        else Some(Completing(h.x, h.subject, address, local || h.email.verified))
      else if cfg.mailer then Some(Challenging(h.x, h.connectorId, h.subject, address))
      else None
  }

  // What complete finds out about the client, the user and the temporary credential before it
  // issues a code.
  datatype View = View(
    known: bool, redirectAllowed: bool, requirePar: bool, acceptsBinding: bool, refreshEnabled: bool,
    allowOffline: bool,
    userAllowed: bool, credentialBacked: bool)

  predicate SatisfiesPolicy(x: Context, v: View) {
    && (v.requirePar ==> x.pushed) && v.acceptsBinding
    && (x.refreshMode == "" || (x.refreshMode == "session" && v.refreshEnabled)
        || (x.refreshMode == "offline" && v.refreshEnabled && v.allowOffline))
  }

  predicate MayIssue(cfg: Config, x: Context, v: View) {
    && x.purpose != "manage_grants"
    && v.known && v.redirectAllowed && SatisfiesPolicy(x, v) && (x.refreshMode == "offline" ==>
      x.offlineConsent) && v.userAllowed
    && (x.refreshMode != "" ==>
          x.connectorId in cfg.kinds && v.credentialBacked != (cfg.kinds[x.connectorId] == "email"))
  }

  // ---- Steps ---------------------------------------------------------------------------------

  datatype FlowStep =
    | Push(uri: string, p: PushedRequest)
    | Begin(w: nat, o: Origin)
    | BeginPushed(w: nat, uri: string, clientId: string, now: int, view: View)
    | Park(w: nat, token: string, now: int)
    | Peek(w: nat, token: string, connectorId: string, now: int)
    | Offer(w: nat, hash: Digest, subject: string, emails: seq<Email>, now: int)
    | Pick(w: nat, hash: Digest, index: nat, now: int)
    | Take(w: nat, token: string, page: Page, now: int, checked: int)
    | Decide(w: nat)
    | Accept(w: nat)
    | Challenge(w: nat, id: string, mac: Mac, now: int, ttl: int)
    | Resend(id: string, mac: Mac, now: int, ttl: int)
    | Verify(w: nat, id: string, guess: Mac, now: int)
    | Prove(w: nat)
    | Complete(w: nat, code: string, v: View, now: int)
    | Redeem(code: string, expected: AuthCode, binding: AuthCodeBinding, grant: Option<NewGrant>, m: RefreshMaterial,
      now: int)
    | Crash(w: nat)
    | CleanedUp(sweep: Sweep, now: int)
    | Elsewhere(db: Db)

  // Which steps can happen: workers do what their hand says, tokens and codes are random and so
  // have never been handed out before, and everything else in the database may change at will.
  predicate Enabled(m: Machine, s: FlowStep) {
    match s
    case Begin(w, o) => w !in m.hands
    case BeginPushed(w, _, _, _, _) => w !in m.hands
    case Park(w, token, _) => w in m.hands && m.hands[w].Parking? && token !in m.log.used
    case Peek(w, _, _, _) => w !in m.visits
    case Offer(w, _, _, _, _) => w in m.visits && m.visits[w].CallingBack?
    case Pick(w, _, _, _) => w !in m.visits
    case Take(w, token, page, _, _) =>
      w !in m.hands && (page.CallbackPage? || page.IdentityPage? ==> w in m.visits && m.visits[w].token == token)
    case Decide(w) => w in m.hands && m.hands[w].Asserting?
    case Accept(w) => w in m.hands && m.hands[w].Accepting?
    case Challenge(w, _, _, _, _) => w in m.hands && m.hands[w].Challenging?
    case Verify(w, _, _, _) => w !in m.hands
    case Prove(w) => w in m.hands && m.hands[w].Proving?
    case Complete(w, code, _, _) => w in m.hands && m.hands[w].Completing? && code !in m.issued
    case Elsewhere(db) =>
      && db.otp == m.db.otp
      && db.flow.(actions := m.db.flow.actions, credentials := m.db.flow.credentials) == m.db.flow
    case _ => true
  }

  // The request moves from one holder to another, or is lost.
  function Moved(m: Machine, from: Holder, to: Holder): map<Holder, nat>
    requires from in m.tags
  {
    (m.tags - {from})[to := m.tags[from]]
  }

  function Freed(m: Machine, w: nat): Machine {
    m.(hands := m.hands - {w}, tags := m.tags - {Worker(w)})
  }

  function Held(m: Machine, from: Holder, w: nat, h: Hand): Machine
    requires from in m.tags
  {
    m.(hands := m.hands[w := h], tags := Moved(m, from, Worker(w)))
  }

  function WithFlow(m: Machine, flow: Flow): Machine {
    m.(db := m.db.(flow := flow))
  }

  function Asserted(connectorId: string, subject: string, emails: seq<Email>): set<Identity> {
    set i | 0 <= i < |emails| && emails[i].verified :: Identity(connectorId, subject, emails[i].address)
  }

  function Opened(m: Machine, h: Holder, r: Request): Machine {
    m.(tags := m.tags[h := m.log.next],
      log := m.log.(requests := m.log.requests[m.log.next := r], next := m.log.next + 1))
  }

  function DoPush(m: Machine, uri: string, p: PushedRequest): Machine {
    var (flow, r) := SavePushedRequest(m.db.flow, uri, p);
    if r.Err? then m else Opened(WithFlow(m, flow), PushedRow(uri), Waiting(p))
  }

  // HandleAuthorize and HandleGrants, once the parameters are validated.
  function DoBegin(cfg: Config, m: Machine, w: nat, o: Origin): Machine {
    var x := Opening(o, false);
    var h := Parking(if o.refreshMode == "offline" then x else Continued(cfg, x));
    Opened(m.(hands := m.hands[w := h]), Worker(w), Running(o, None))
  }

  // authorizationPrompt: what the user is to do, or None where the request cannot go on.
  function Purpose(prompt: string): Option<string> {
    if prompt == "" || prompt == "login" then Some("authorize")
    else if prompt == "create" then Some("authorize_create")
    else None
  }

  // What a pushed request asks for now that it is used, if the client may still have it.
  function PushedOrigin(p: PushedRequest, v: View, now: int): Option<Origin> {
    if !v.redirectAllowed || !v.acceptsBinding || (OfflineScope(p.scopes) && !(v.refreshEnabled && v.allowOffline))
       || Purpose(p.prompt).None? then None
    else
      Some(Origin(p.clientId, p.redirectUri, p.codeChallenge, p.nonce, p.state, p.scopes,
        ModeOf(p.scopes, v.refreshEnabled), now,
                  Purpose(p.prompt).value, p.dpopJkt))
  }

  // handlePushedAuthorize: the pushed request is spent whether or not it is still acceptable.
  function DoBeginPushed(m: Machine, w: nat, uri: string, clientId: string, now: int, v: View): Machine
    requires Tagged(m)
  {
    var (flow, r) := ConsumePushedRequest(m.db.flow, uri, clientId, now);
    if r.Err? then m
    else
      assert Present(m, PushedRow(uri));
      match PushedOrigin(r.value, v, now)
      case None => WithFlow(m, flow).(tags := m.tags - {PushedRow(uri)})
      case Some(o) =>
        Held(WithFlow(m, flow), PushedRow(uri), w, Parking(Opening(o, true)))
        .(log := m.log.(requests := m.log.requests[m.tags[PushedRow(uri)] := Running(o, Some(r.value))]))
  }

  function DoPark(m: Machine, w: nat, token: string, now: int): Machine
    requires Tagged(m) && w in m.hands && m.hands[w].Parking?
  {
    assert Present(m, Worker(w));
    var (flow, r) := SaveState(m.db.flow, token, Stored(m.hands[w].x, now));
    if r.Err? then Freed(m, w)
    else
      WithFlow(m, flow).(hands := m.hands - {w}, tags := Moved(m, Worker(w), StateRow(token)),
                         log := m.log.(used := m.log.used + {token}))
  }

  function DoPeek(m: Machine, w: nat, token: string, id: string, now: int): Machine {
    var r := PeekState(m.db.flow, token, now);
    if r.Err? || id == "" || r.value.connectorId != id then m else m.(visits := m.visits[w := CallingBack(token, id)])
  }

  function DoOffer(m: Machine, w: nat, hash: Digest, subject: string, emails: seq<Email>, now: int): Machine
    requires w in m.visits && m.visits[w].CallingBack?
  {
    var id := m.visits[w].connectorId;
    var (flow, _) := CreateIdentitySelection(m.db.flow, hash, m.visits[w].token, id, subject, emails, STATE_TTL,
      SELECTION_TTL, now);
    WithFlow(m, flow).(visits := m.visits - {w},
      log := m.log.(asserted := m.log.asserted + Asserted(id, subject, emails)))
  }

  function DoPick(m: Machine, w: nat, hash: Digest, index: nat, now: int): Machine {
    var (flow, r) := ConsumeIdentitySelection(m.db.flow, hash, now);
    var m2 := WithFlow(m, flow);
    if r.Err? || |r.value.emails| <= index then m2
    else m2.(visits := m.visits[w := Picking(r.value.state, r.value.connectorId, r.value.subject,
      r.value.emails[index])])
  }

  function DoTake(cfg: Config, m: Machine, w: nat, token: string, page: Page, now: int, checked: int): Machine
    requires Tagged(m)
  {
    var (flow, r) := GetAndDeleteState(m.db.flow, token, now, checked);
    if token !in m.db.flow.states || token in flow.states then m
    else
      assert Present(m, StateRow(token));
      var visit := if w in m.visits then Some(m.visits[w]) else None;
      TakenOver(m, flow, w, token, page, if r.Ok? then Serve(cfg, page, Decoded(token, r.value), visit) else None)
  }

  function TakenOver(m: Machine, flow: Flow, w: nat, token: string, page: Page, hand: Option<Hand>): Machine
    requires StateRow(token) in m.tags
  {
    var m2 := WithFlow(m, flow).(visits := m.visits - {w});
    if hand.None? then m2.(tags := m.tags - {StateRow(token)})
    else Held(m2, StateRow(token), w, hand.value).(log := Noted(m.log, page, hand.value, m.tags[StateRow(token)]))
  }

  function Noted(log: Log, page: Page, h: Hand, id: nat): Log {
    match page
    case ConsentPage(_) => log.(consented := log.consented + {id})
    case CallbackPage(subject, email) =>
      if h.Asserting? then log.(asserted := log.asserted + Asserted(h.connectorId, subject, [email])) else log
    case _ => log
  }

  function DoDecide(cfg: Config, m: Machine, w: nat): Machine
    requires w in m.hands && m.hands[w].Asserting?
  {
    var h := Judge(cfg, m.db.flow, m.hands[w]);
    if h.None? then Freed(m, w) else m.(hands := m.hands[w := h.value])
  }

  function DoAccept(m: Machine, w: nat): Machine
    requires w in m.hands && m.hands[w].Accepting?
  {
    var h := m.hands[w];
    WithFlow(m, SaveCredential(m.db.flow, Identity(h.connectorId, h.subject, h.address), h.local))
    .(hands := m.hands[w := Completing(h.x, h.subject, h.address, h.verified)])
  }

  function DoChallenge(m: Machine, w: nat, id: string, mac: Mac, now: int, ttl: int): Machine
    requires Tagged(m) && w in m.hands && m.hands[w].Challenging?
  {
    assert Present(m, Worker(w));
    var h := m.hands[w];
    var (otp, r) := CreateOtp(m.db.otp, id, h.address, mac, Challenged(h.x, h.connectorId, h.subject, h.address), now,
      ttl);
    if r.Err? then Freed(m, w)
    else m.(db := m.db.(otp := otp), hands := m.hands - {w}, tags := Moved(m, Worker(w), ChallengeRow(id)))
  }

  ghost function DoResend(m: Machine, id: string, mac: Mac, now: int, ttl: int): Machine {
    m.(db := m.db.(otp := ResendOtp(m.db.otp, id, mac, now, ttl).0))
  }

  function DoVerify(m: Machine, w: nat, id: string, guess: Mac, now: int): Machine
    requires Tagged(m)
  {
    var (otp, r) := ConsumeOtp(m.db.otp, id, guess, now);
    var m2 := m.(db := m.db.(otp := otp));
    if r.Err? then m2
    else
      assert Present(m, ChallengeRow(id));
      var f := r.value;
      var address := m.db.otp.challenges[id].email;
      Held(m2, ChallengeRow(id), w, Proving(Resumed(f), f.connectorId, f.subject, f.email))
      .(log := m.log.(proved := m.log.proved + {Identity(f.connectorId, f.subject, address)}))
  }

  function DoProve(m: Machine, w: nat): Machine
    requires w in m.hands && m.hands[w].Proving?
  {
    var h := m.hands[w];
    WithFlow(m, SaveCredential(m.db.flow, Identity(h.connectorId, h.subject, h.address), true))
    .(hands := m.hands[w := Completing(h.x, h.subject, h.address, true)])
  }

  function DoComplete(cfg: Config, m: Machine, w: nat, code: string, v: View, now: int): Machine
    requires Tagged(m) && w in m.hands && m.hands[w].Completing?
  {
    assert Present(m, Worker(w));
    var h := m.hands[w];
    if !MayIssue(cfg, h.x, v) then Freed(m, w)
    else
      var c := CodeFor(h.x, h.subject, h.address, h.verified, now);
      var (flow, r) := SaveAuthCode(m.db.flow, code, c);
      if r.Err? then Freed(m, w)
      else WithFlow(m, flow).(hands := m.hands - {w}, tags := Moved(m, Worker(w), Issued(code)),
        issued := m.issued[code := c])
  }

  function DoRedeem(
    m: Machine, code: string, expected: AuthCode, binding: AuthCodeBinding, grant: Option<NewGrant>,
    material: RefreshMaterial, now: int)
    : Machine
  {
    var (db, r) := ConsumeAuthCode(m.db, code, expected, binding, grant, material, now);
    if r.Err? then m else m.(db := db, answered := m.answered + [code])
  }

  function DoCrash(m: Machine, w: nat): Machine {
    m.(hands := m.hands - {w}, visits := m.visits - {w}, tags := m.tags - {Worker(w)})
  }

  function DoSweep(m: Machine, sweep: Sweep, now: int): Machine {
    var m2 := m.(db := CleanUp(m.db, sweep, now));
    m2.(tags := map h | h in m.tags && Present(m2, h) :: m.tags[h])
  }

  // ---- What every step keeps --------------------------------------------------------------------

  // What stands for a request at a holder; an issued code stands for ever.
  datatype Content =
    | Absent
    | RequestAt(p: PushedRequest)
    | FlowAt(token: string, s: OAuthState)
    | ChallengeAt(c: Challenge)
    | HandAt(h: Hand)
    | CodeAt(code: AuthCode)

  function ContentOf(m: Machine, h: Holder): Content {
    match h
    case PushedRow(uri) => if uri in m.db.flow.pushed then RequestAt(m.db.flow.pushed[uri]) else Absent
    case StateRow(token) => if token in m.db.flow.states then FlowAt(token, m.db.flow.states[token]) else Absent
    case ChallengeRow(id) => if id in m.db.otp.challenges then ChallengeAt(m.db.otp.challenges[id]) else Absent
    case Worker(w) => if w in m.hands then HandAt(m.hands[w]) else Absent
    case Issued(code) => if code in m.issued then CodeAt(m.issued[code]) else Absent
  }

  predicate Present(m: Machine, h: Holder) {
    ContentOf(m, h) != Absent
  }

  ghost predicate Tagged(m: Machine) {
    forall h :: h in m.tags <==> Present(m, h)
  }

  // No request has two holders.
  ghost predicate Single(m: Machine) {
    && (forall h :: h in m.tags ==> m.tags[h] < m.log.next)
    && (forall h, k :: h in m.tags && k in m.tags && m.tags[h] == m.tags[k] ==> h == k)
  }

  // A flow says what its request said, and claims consent only where consent was given.
  predicate Fits(log: Log, x: Context, id: nat) {
    && id in log.requests && log.requests[id].Running?
    && var r := log.requests[id];
       var o := r.origin;
    && x.clientId == o.clientId && x.redirectUri == o.redirectUri && x.codeChallenge == o.codeChallenge
    && x.nonce == o.nonce && x.oidcState == o.oidcState && x.scopes == o.scopes && x.refreshMode == o.refreshMode
    && x.authTime == o.authTime && x.purpose == o.purpose && x.dpopJkt == o.dpopJkt && x.pushed == r.pushed.Some?
    && (x.offlineConsent ==> id in log.consented)
  }

  // The address of an identity was proved by a code sent to it, or asserted by its connector.
  ghost predicate Vouched(cfg: Config, log: Log, i: Identity) {
    i in log.proved
    || exists raw ::
      raw in cfg.normal && cfg.normal[raw] == i.email && Identity(i.connectorId, i.subject, raw) in log.asserted
  }

  // Which evidence the configured mode asks for before a code is issued.
  ghost predicate Evidence(cfg: Config, log: Log, i: Identity, verified: bool) {
    && (verified ==> Vouched(cfg, log, i))
    && (cfg.mode != "disabled" ==> verified)
    && (cfg.mode != "disabled" && cfg.mode != "provider" ==> i in log.proved)
  }

  ghost predicate HandFits(cfg: Config, log: Log, h: Hand, id: nat) {
    && Fits(log, h.x, id)
    && match h
       case Parking(_) => true
       case Asserting(x, connector, subject, email) =>
         x.connectorId == connector && (email.verified ==> Identity(connector, subject, email.address) in log.asserted)
       case Accepting(x, connector, subject, address, local, verified) =>
         && x.connectorId == connector && Evidence(cfg, log, Identity(connector, subject, address), verified)
         && (local ==> Identity(connector, subject, address) in log.proved)
       case Challenging(x, connector, _, _) => x.connectorId == connector
       case Proving(x, connector, subject, address) =>
         x.connectorId == connector && Identity(connector, subject, address) in log.proved
       case Completing(x, subject, address, verified) =>
         Evidence(cfg, log, Identity(x.connectorId, subject, address), verified)
  }

  ghost predicate CodeFits(cfg: Config, log: Log, c: AuthCode, id: nat) {
    && id in log.requests && log.requests[id].Running?
    && var r := log.requests[id];
       var o := r.origin;
    && c.clientId == o.clientId && c.redirectUri == o.redirectUri && c.codeChallenge == o.codeChallenge
      && c.nonce == o.nonce
    && c.scopes == o.scopes && c.refreshMode == o.refreshMode && c.authTime == o.authTime && c.dpopJkt == o.dpopJkt
    && c.pushed == r.pushed.Some? && o.purpose != "manage_grants"
    && (c.offlineConsent ==> id in log.consented) && (c.refreshMode == "offline" ==> c.offlineConsent)
    && Evidence(cfg, log, Identity(c.connectorId, c.subject, c.email), c.emailVerified)
  }

  ghost predicate ContentFits(cfg: Config, log: Log, c: Content, id: nat) {
    match c
    case Absent => true
    case RequestAt(p) => id in log.requests && log.requests[id] == Waiting(p)
    case FlowAt(token, s) => token in log.used && Fits(log, Decoded(token, s), id)
    case ChallengeAt(c) => c.email == c.flow.email && Fits(log, Resumed(c.flow), id)
    case HandAt(h) => HandFits(cfg, log, h, id)
    case CodeAt(c) => CodeFits(cfg, log, c, id)
  }

  ghost predicate ContentsFit(cfg: Config, m: Machine) {
    forall h :: h in m.tags ==> ContentFits(cfg, m.log, ContentOf(m, h), m.tags[h])
  }

  // A request that came in as a pushed one asks for what was pushed.
  predicate OriginFits(r: Request) {
    r.Running? && r.pushed.Some? ==>
      var p := r.pushed.value;
      var o := r.origin;
      && o.clientId == p.clientId && o.redirectUri == p.redirectUri && o.codeChallenge == p.codeChallenge
        && o.nonce == p.nonce
      && o.oidcState == p.state && o.scopes == p.scopes && o.dpopJkt == p.dpopJkt
  }

  ghost predicate OriginsFit(log: Log) {
    forall id :: id in log.requests ==> id < log.next && OriginFits(log.requests[id])
  }

  ghost predicate VisitFits(m: Machine, v: Visit) {
    match v
    case CallingBack(token, connector) =>
      token in m.log.used && (token in m.db.flow.states ==> m.db.flow.states[token].connectorId == connector)
    case Picking(_, connector, subject, email) => email.verified ==>
      Identity(connector, subject, email.address) in m.log.asserted
  }

  ghost predicate VisitsFit(m: Machine) {
    forall w :: w in m.visits ==> VisitFits(m, m.visits[w])
  }

  ghost predicate CodesFit(m: Machine) {
    && (forall c :: c in m.db.flow.codes ==> c in m.issued && m.issued[c] == m.db.flow.codes[c])
    && (forall i :: 0 <= i < |m.answered| ==> m.answered[i] in m.issued && m.answered[i] !in m.db.flow.codes)
    && (forall i, j :: 0 <= i < j < |m.answered| ==> m.answered[i] != m.answered[j])
  }

  ghost predicate SelectionFits(log: Log, s: Selection) {
    forall e :: e in s.emails && e.verified ==> Identity(s.connectorId, s.subject, e.address) in log.asserted
  }

  ghost predicate IdentitiesFit(m: Machine) {
    && (forall i :: LocallyVerified(m.db.flow, i) ==> i in m.log.proved)
    && (forall k :: k in m.db.flow.selections ==> SelectionFits(m.log, m.db.flow.selections[k]))
  }

  ghost predicate Inv(cfg: Config, m: Machine) {
    Tagged(m) && Single(m) && ContentsFit(cfg, m) && OriginsFit(m.log) && VisitsFit(m) && CodesFit(m)
      && IdentitiesFit(m)
  }

  ghost function Next(cfg: Config, m: Machine, s: FlowStep): Machine
    requires Tagged(m) && Enabled(m, s)
  {
    match s
    case Push(uri, p) => DoPush(m, uri, p)
    case Begin(w, o) => DoBegin(cfg, m, w, o)
    case BeginPushed(w, uri, clientId, now, v) => DoBeginPushed(m, w, uri, clientId, now, v)
    case Park(w, token, now) => DoPark(m, w, token, now)
    case Peek(w, token, id, now) => DoPeek(m, w, token, id, now)
    case Offer(w, hash, subject, emails, now) => DoOffer(m, w, hash, subject, emails, now)
    case Pick(w, hash, index, now) => DoPick(m, w, hash, index, now)
    case Take(w, token, page, now, checked) => DoTake(cfg, m, w, token, page, now, checked)
    case Decide(w) => DoDecide(cfg, m, w)
    case Accept(w) => DoAccept(m, w)
    case Challenge(w, id, mac, now, ttl) => DoChallenge(m, w, id, mac, now, ttl)
    case Resend(id, mac, now, ttl) => DoResend(m, id, mac, now, ttl)
    case Verify(w, id, guess, now) => DoVerify(m, w, id, guess, now)
    case Prove(w) => DoProve(m, w)
    case Complete(w, code, v, now) => DoComplete(cfg, m, w, code, v, now)
    case Redeem(code, expected, binding, grant, material, now) =>
      DoRedeem(m, code, expected, binding, grant, material, now)
    case Crash(w) => DoCrash(m, w)
    case CleanedUp(sweep, now) => DoSweep(m, sweep, now)
    case Elsewhere(db) => m.(db := db)
  }
}
