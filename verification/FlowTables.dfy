// The short-lived tables of the authorization flow and what each statement does to them:
// internal/statedb/statedb.go, grants.go, par.go and the code half of refresh.go.
module FlowTables {
  import opened Common
  import opened RefreshFamilies

  datatype Email = Email(address: string, verified: bool, primary: bool)

  datatype OAuthState = OAuthState(
    clientId: string, redirectUri: string, codeChallenge: string, nonce: string, oidcState: string,
    createdAt: int, expiresAt: int, connectorId: string, scopes: string, refreshMode: string, authTime: int,
    offlineConsent: bool, purpose: string, dpopJkt: string, pushed: bool)

  datatype AuthCode = AuthCode(
    clientId: string, redirectUri: string, codeChallenge: string, email: string, emailVerified: bool, nonce: string,
    createdAt: int, expiresAt: int, scopes: string, refreshMode: string, authTime: int, connectorId: string,
    subject: string, offlineConsent: bool, dpopJkt: string, pushed: bool)

  datatype AuthCodeBinding = AuthCodeBinding(clientId: string, redirectUri: string, codeChallenge: string)

  // A credential under the configured master key, bound to its flow.
  datatype TemporaryBox = TemporaryBox(flowId: string, clientId: string, connectorId: string,
    content: Option<Credential>)

  datatype FlowCredential = FlowCredential(clientId: string, connectorId: string, box: TemporaryBox, expiresAt: int)

  datatype Selection = Selection(state: string, connectorId: string, subject: string, emails: seq<Email>,
    expiresAt: int)

  datatype Action = Action(email: string, sid: string, action: string, createdAt: int, expiresAt: int)

  datatype PushedRequest = PushedRequest(
    clientId: string, redirectUri: string, responseType: string, scopes: string, state: string, nonce: string,
    codeChallenge: string, prompt: string, dpopJkt: string, createdAt: int, expiresAt: int)

  datatype Identity = Identity(connectorId: string, subject: string, email: string)

  // states by token, codes by code, credentials by flow id, selections and actions by the hash
  // of their token, pushed requests by URI, and the accepted identities with their local flag.
  datatype Flow = Flow(
    states: map<string, OAuthState>, codes: map<string, AuthCode>, credentials: map<string, FlowCredential>,
    selections: map<Digest, Selection>, actions: map<Digest, Action>, pushed: map<string, PushedRequest>,
    accepted: map<Identity, bool>)

  function SaveState(f: Flow, token: string, s: OAuthState): (Flow, Result<(), StoreError>) {
    if token in f.states then (f, Err(Storage)) else (f.(states := f.states[token := s]), Ok(()))
  }

  // Deletes and returns an unexpired state; the row is gone even when the second clock reading
  // finds it has expired meanwhile.
  function GetAndDeleteState(f: Flow, token: string, now: int, checked: int): (Flow, Result<OAuthState, StoreError>) {
    if token !in f.states || f.states[token].expiresAt < now then (f, Err(InvalidGrant))
    else
      (f.(states := f.states - {token}),
       if f.states[token].expiresAt < checked then Err(InvalidGrant) else Ok(f.states[token]))
  }

  function PeekState(f: Flow, token: string, now: int): Result<OAuthState, StoreError> {
    if token !in f.states || f.states[token].expiresAt < now then Err(InvalidGrant) else Ok(f.states[token])
  }

  function SaveAuthCode(f: Flow, code: string, c: AuthCode): (Flow, Result<(), StoreError>) {
    if code in f.codes then (f, Err(Storage)) else (f.(codes := f.codes[code := c]), Ok(()))
  }

  function PeekAuthCode(f: Flow, code: string, now: int): Result<AuthCode, StoreError> {
    if code !in f.codes || f.codes[code].expiresAt <= now then Err(InvalidGrant) else Ok(f.codes[code])
  }

  predicate CodeMatches(f: Flow, code: string, expected: AuthCode, b: AuthCodeBinding, now: int) {
    && code in f.codes && f.codes[code] == expected
    && expected.clientId == b.clientId && expected.redirectUri == b.redirectUri
      && expected.codeChallenge == b.codeChallenge
    && now < expected.expiresAt
  }

  // Relabels a temporary credential; the empty from label deletes nothing.
  function SaveFlowCredential(f: Flow, from: string, to: string, c: FlowCredential): Flow {
    var base := if from != "" then f.credentials - {from} else f.credentials;
    f.(credentials := base[to := c])
  }

  function LoadFlowCredential(
    f: Flow, id: string, clientId: string, connectorId: string, now: int): Result<TemporaryBox, StoreError> {
    if id in f.credentials && f.credentials[id].clientId == clientId && f.credentials[id].connectorId == connectorId
       && now < f.credentials[id].expiresAt
    then Ok(f.credentials[id].box) else Err(InvalidGrant)
  }

  function DecryptTemporaryCredential(
    id: string, clientId: string, connectorId: string, box: TemporaryBox): Option<Credential> {
    if box.flowId == id && box.clientId == clientId && box.connectorId == connectorId then box.content else None
  }

  function CreateIdentitySelection(
    f: Flow, hash: Digest, token: string, connectorId: string, subject: string, emails: seq<Email>,
    stateTtl: int, selectionTtl: int, now: int): (Flow, Result<(), StoreError>)
  {
    if stateTtl <= 0 || selectionTtl <= 0 || token !in f.states then (f, Err(InvalidGrant))
    else
      var s := f.states[token];
      if s.expiresAt <= now || s.createdAt + stateTtl <= now then (f, Err(InvalidGrant))
      else if hash in f.selections then (f, Err(Storage))
      else
        (f.(states := f.states[token := s.(expiresAt := now + selectionTtl)],
            selections := f.selections[hash := Selection(token, connectorId, subject, emails, now + selectionTtl)]),
         Ok(()))
  }

  function ConsumeIdentitySelection(f: Flow, hash: Digest, now: int): (Flow, Result<Selection, StoreError>) {
    if hash in f.selections && now < f.selections[hash].expiresAt then
      (f.(selections := f.selections - {hash}), Ok(f.selections[hash]))
    else (f, Err(InvalidGrant))
  }

  function SavePushedRequest(f: Flow, uri: string, p: PushedRequest): (Flow, Result<(), StoreError>) {
    if uri in f.pushed then (f, Err(Storage)) else (f.(pushed := f.pushed[uri := p]), Ok(()))
  }

  function ConsumePushedRequest(
    f: Flow, uri: string, clientId: string, now: int): (Flow, Result<PushedRequest, StoreError>) {
    if uri in f.pushed && f.pushed[uri].clientId == clientId && now < f.pushed[uri].expiresAt then
      (f.(pushed := f.pushed - {uri}), Ok(f.pushed[uri]))
    else (f, Err(InvalidGrant))
  }

  // local_verified only ever turns on.
  function SaveCredential(f: Flow, id: Identity, local: bool): Flow {
    f.(accepted := f.accepted[id := local || (id in f.accepted && f.accepted[id])])
  }

  predicate LocallyVerified(f: Flow, id: Identity) {
    id in f.accepted && f.accepted[id]
  }

  // ---- Cleanup: each table loses some of the rows that its own expiry test selects ----------

  function PruneStates(m: map<string, OAuthState>, keys: set<string>, now: int): map<string, OAuthState> {
    map k | k in m && !(k in keys && m[k].expiresAt < now) :: m[k]
  }

  function PruneCodes(m: map<string, AuthCode>, keys: set<string>, now: int): map<string, AuthCode> {
    map k | k in m && !(k in keys && m[k].expiresAt < now) :: m[k]
  }

  function PruneCredentials(m: map<string, FlowCredential>, keys: set<string>, now: int): map<string, FlowCredential> {
    map k | k in m && !(k in keys && m[k].expiresAt <= now) :: m[k]
  }

  function PruneSelections(m: map<Digest, Selection>, keys: set<Digest>, now: int): map<Digest, Selection> {
    map k | k in m && !(k in keys && m[k].expiresAt <= now) :: m[k]
  }

  function PruneActions(m: map<Digest, Action>, keys: set<Digest>, now: int): map<Digest, Action> {
    map k | k in m && !(k in keys && m[k].expiresAt <= now) :: m[k]
  }

  function PrunePushed(m: map<string, PushedRequest>, keys: set<string>, now: int): map<string, PushedRequest> {
    map k | k in m && !(k in keys && m[k].expiresAt < now) :: m[k]
  }

  // Deleting a grant deletes the actions that refer to it.
  function WithoutActionsOf(m: map<Digest, Action>, sids: set<string>): map<Digest, Action> {
    map k | k in m && m[k].sid !in sids :: m[k]
  }
}
