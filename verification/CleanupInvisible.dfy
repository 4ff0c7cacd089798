// Cleanup is invisible: a run of the database in which expired rows are deleted at any moment
// answers every request exactly as the same run in which nothing is ever deleted.
module CleanupInvisible {
  import opened Common
  import opened RefreshFamilies
  import opened FlowTables
  import opened OtpTables
  import opened Database
  import R = RefreshTheorems

  datatype Op =
    | Family(step: R.Step)
    | Prepare(m: RefreshMaterial, clientId: string, now: int)
    | SaveS(token: string, state: OAuthState, now: int)
    | TakeS(token: string, now: int, checked: int)
    | PeekS(token: string, now: int)
    | SaveC(code: string, row: AuthCode, now: int)
    | PeekC(code: string, now: int)
    | TakeC(code: string, expected: AuthCode, binding: AuthCodeBinding, grant: Option<NewGrant>, m: RefreshMaterial,
      now: int)
    | SaveF(from: string, to: string, credential: FlowCredential, now: int)
    | LoadF(id: string, clientId: string, connectorId: string, now: int)
    | SaveSelection(hash: Digest, token: string, connectorId: string, subject: string, emails: seq<Email>,
                    stateTtl: int, selectionTtl: int, now: int)
    | TakeSelection(hash: Digest, now: int)
    | SaveP(uri: string, request: PushedRequest, now: int)
    | TakeP(uri: string, clientId: string, now: int)
    | SaveActions(batch: seq<GrantAction>, email: string, action: string, expiry: int, now: int)
    | TakeAction(hash: Digest, email: string, sid: string, action: string, now: int)
    | SaveOtp(id: string, email: string, mac: Mac, flow: OtpFlow, ttl: int, now: int)
    | ResendO(id: string, mac: Mac, ttl: int, now: int)
    | PeekOtp(id: string, now: int)
    | TakeOtp(id: string, mac: Mac, now: int)

  // What the caller learns. Failures of one kind of request are not told apart, except by the
  // OTP operations; marks, releases, aborts and plain revocations hand out nothing.
  datatype Reply =
    | Refused
    | Silent
    | Done
    | Usable(prepared: Prepared)
    | Held(claimed: Claimed)
    | Expiry(at: int)
    | State(state: OAuthState)
    | Code(code: AuthCode)
    | Box(box: TemporaryBox)
    | Selected(selection: Selection)
    | Pushed(request: PushedRequest)
    | OtpReply(error: OtpError)
    | OtpContext(context: OtpFlow, until: int)
    | OtpAccepted(context: OtpFlow)

  function Plain(r: Result<(), StoreError>): Reply {
    if r.Ok? then Done else Refused
  }

  function FamilyReply(f: Families, s: R.Step): Reply {
    match s
    case Create(sid, profile, credential, upstream, absolute, m, now) =>
      Plain(CreateGrant(f, sid, profile, credential, upstream, absolute, m, now).1)
    case Claim(m, clientId, now, ttl, id) =>
      (match ClaimRefresh(f, m, clientId, now, ttl, id).1 case Ok(v) => Held(v) case Err(_) => Refused)
    case Complete(current, replacement, sid, idleTtl, id, upstream, sealed, absolute, now) =>
      (match CompleteClaimedRefresh(f, current, replacement, sid, idleTtl, id, upstream, sealed, absolute, now).1
       case Ok(v) => Expiry(v) case Err(_) => Refused)
    case Rotate(current, replacement, clientId, now) =>
      (match RotateRefreshToken(f, current, replacement, clientId, now).1 case Ok(v) => Usable(v) case Err(_) =>
        Refused)
    case _ => Silent
  }

  // Requests that only touch the short-lived tables.
  ghost function PerformFlow(f: Flow, op: Op): (Flow, Reply) {
    match op
    case SaveS(token, state, now) => var (f2, r) := SaveState(f, token, state); (f2, Plain(r))
    case TakeS(token, now, checked) =>
      var (f2, r) := GetAndDeleteState(f, token, now, checked); (f2, if r.Ok? then State(r.value) else Refused)
    case PeekS(token, now) => var r := PeekState(f, token, now); (f, if r.Ok? then State(r.value) else Refused)
    case SaveC(code, row, now) => var (f2, r) := SaveAuthCode(f, code, row); (f2, Plain(r))
    case PeekC(code, now) => var r := PeekAuthCode(f, code, now); (f, if r.Ok? then Code(r.value) else Refused)
    case SaveF(from, to, credential, now) => (SaveFlowCredential(f, from, to, credential), Done)
    case LoadF(id, clientId, connectorId, now) =>
      var r := LoadFlowCredential(f, id, clientId, connectorId, now); (f, if r.Ok? then Box(r.value) else Refused)
    case SaveSelection(hash, token, connectorId, subject, emails, stateTtl, selectionTtl, now) =>
      var (f2, r) := CreateIdentitySelection(f, hash, token, connectorId, subject, emails, stateTtl, selectionTtl,
        now); (f2, Plain(r))
    case TakeSelection(hash, now) =>
      var (f2, r) := ConsumeIdentitySelection(f, hash, now); (f2, if r.Ok? then Selected(r.value) else Refused)
    case SaveP(uri, request, now) => var (f2, r) := SavePushedRequest(f, uri, request); (f2, Plain(r))
    case TakeP(uri, clientId, now) =>
      var (f2, r) := ConsumePushedRequest(f, uri, clientId, now); (f2, if r.Ok? then Pushed(r.value) else Refused)
    case _ => (f, Silent)
  }

  ghost function PerformOtp(o: Otp, op: Op): (Otp, Reply) {
    match op
    case SaveOtp(id, email, mac, flow, ttl, now) =>
      var (o2, r) := CreateOtp(o, id, email, mac, flow, now, ttl); (o2, if r.Ok? then
        Expiry(r.value) else OtpReply(r.error))
    case ResendO(id, mac, ttl, now) =>
      var (o2, r) := ResendOtp(o, id, mac, now, ttl); (o2, if r.Ok? then Expiry(r.value) else OtpReply(r.error))
    case PeekOtp(id, now) =>
      var r := OtpFlowOf(o, id, now); (o, if r.Ok? then OtpContext(r.value.0, r.value.1) else OtpReply(r.error))
    case TakeOtp(id, mac, now) =>
      var (o2, r) := ConsumeOtp(o, id, mac, now); (o2, if r.Ok? then OtpAccepted(r.value) else OtpReply(r.error))
    case _ => (o, Silent)
  }

  ghost function Perform(db: Db, op: Op): (Db, Reply) {
    match op
    case Family(s) => (db.(families := R.Apply(db.families, s)), FamilyReply(db.families, s))
    case Prepare(m, clientId, now) =>
      var r := PrepareRefresh(db.families, m, clientId, now); (db, if r.Ok? then Usable(r.value) else Refused)
    case TakeC(code, expected, binding, grant, m, now) =>
      var (d, r) := ConsumeAuthCode(db, code, expected, binding, grant, m, now); (d, Plain(r))
    case SaveActions(batch, email, action, expiry, now) =>
      var (d, r) := InsertActions(db, batch, email, action, now, expiry); (d, Plain(r))
    case TakeAction(hash, email, sid, action, now) =>
      var (d, r) := ConsumeGrantActionAndRevoke(db, hash, email, sid, action, now); (d, Plain(r))
    case _ =>
      if op.SaveOtp? || op.ResendO? || op.PeekOtp? || op.TakeOtp? then
        var (o, r) := PerformOtp(db.otp, op); (db.(otp := o), r)
      else
        var (f, r) := PerformFlow(db.flow, op); (db.(flow := f), r)
  }

  // When the request runs. Releases and aborts do not look at the clock.
  function TimeOf(op: Op): Option<int> {
    match op
    case Family(s) => if s.Release? || s.Abort? then None else Some(s.now)
    case _ => Some(op.now)
  }

  // ---- The simulation relation: c is u without some rows that are expired at time now ------

  ghost predicate SimFamilies(u: Families, c: Families, now: int) {
    && (forall s :: s in c.grants ==> s in u.grants && u.grants[s] == c.grants[s])
    && (forall s :: s in u.grants && s !in c.grants ==> u.grants[s].absoluteExpiry <= now)
    && (forall h :: h in c.tokens ==> h in u.tokens && u.tokens[h] == c.tokens[h] && c.tokens[h].sid in c.grants)
    && (forall h :: h in u.tokens ==> u.tokens[h].sid in u.grants)
    && (forall h :: h in u.tokens && u.tokens[h].sid in c.grants ==> h in c.tokens)
  }

  ghost predicate SimStates(u: map<string, OAuthState>, c: map<string, OAuthState>, now: int) {
    (forall k :: k in c ==> k in u && u[k] == c[k]) && (forall k :: k in u && k !in c ==> u[k].expiresAt < now)
  }

  ghost predicate SimCodes(u: map<string, AuthCode>, c: map<string, AuthCode>, now: int) {
    (forall k :: k in c ==> k in u && u[k] == c[k]) && (forall k :: k in u && k !in c ==> u[k].expiresAt < now)
  }

  ghost predicate SimCredentials(u: map<string, FlowCredential>, c: map<string, FlowCredential>, now: int) {
    (forall k :: k in c ==> k in u && u[k] == c[k]) && (forall k :: k in u && k !in c ==> u[k].expiresAt <= now)
  }

  ghost predicate SimSelections(u: map<Digest, Selection>, c: map<Digest, Selection>, now: int) {
    (forall k :: k in c ==> k in u && u[k] == c[k]) && (forall k :: k in u && k !in c ==> u[k].expiresAt <= now)
  }

  ghost predicate SimActions(u: map<Digest, Action>, c: map<Digest, Action>, grants: set<string>, now: int) {
    && (forall k :: k in c ==> k in u && u[k] == c[k])
    && (forall k :: k in u && k !in c ==> u[k].expiresAt <= now || u[k].sid !in grants)
  }

  ghost predicate SimPushed(u: map<string, PushedRequest>, c: map<string, PushedRequest>, now: int) {
    (forall k :: k in c ==> k in u && u[k] == c[k]) && (forall k :: k in u && k !in c ==> u[k].expiresAt < now)
  }

  ghost predicate SimFlow(u: Flow, c: Flow, grants: set<string>, now: int) {
    && SimStates(u.states, c.states, now) && SimCodes(u.codes, c.codes, now)
    && SimCredentials(u.credentials, c.credentials, now) && SimSelections(u.selections, c.selections, now)
    && SimActions(u.actions, c.actions, grants, now) && SimPushed(u.pushed, c.pushed, now)
    && u.accepted == c.accepted
  }

  ghost predicate SimOtp(u: Otp, c: Otp, now: int) {
    && (forall k :: k in c.challenges ==> k in u.challenges && u.challenges[k] == c.challenges[k])
    && (forall k :: k in u.challenges && k !in c.challenges ==> u.challenges[k].expiresAt < now)
    && (forall r :: r in c.sends ==> r in u.sends && u.sends[r] == c.sends[r])
    && (forall r :: r in u.sends && r !in c.sends ==> u.sends[r].at < now - HOUR)
    && u.nextRow == c.nextRow
  }

  ghost predicate Sim(u: Db, c: Db, now: int) {
    && SimFamilies(u.families, c.families, now)
    && SimFlow(u.flow, c.flow, c.families.grants.Keys, now)
    && SimOtp(u.otp, c.otp, now)
    && (forall k :: k in u.flow.actions ==> u.flow.actions[k].sid in u.families.grants)
  }

  // ---- New identifiers -----------------------------------------------------------------------

  // A freshly generated identifier is never that of a row which only cleanup removed.
  ghost predicate FreshFamily(u: Families, c: Families, s: R.Step) {
    match s
    case Create(sid, _, _, _, _, m, _) => (sid in u.grants ==> sid in c.grants) && (m.handleHash in u.tokens ==>
      m.handleHash in c.tokens)
    case Complete(_, r, _, _, _, _, _, _, _) => r.handleHash in u.tokens ==> r.handleHash in c.tokens
    case Rotate(_, r, _, _) => r.handleHash in u.tokens ==> r.handleHash in c.tokens
    case Cleanup(_, _) => false
    case _ => true
  }

  ghost predicate FreshFlow(u: Flow, c: Flow, op: Op) {
    match op
    case SaveS(token, _, _) => token in u.states ==> token in c.states
    case SaveC(code, _, _) => code in u.codes ==> code in c.codes
    case SaveSelection(hash, _, _, _, _, _, _, _) => hash in u.selections ==> hash in c.selections
    case SaveP(uri, _, _) => uri in u.pushed ==> uri in c.pushed
    case _ => true
  }

  ghost predicate Fresh(u: Db, c: Db, op: Op) {
    match op
    case Family(s) => FreshFamily(u.families, c.families, s)
    case TakeC(_, _, _, grant, m, _) =>
      && (m.handleHash in u.families.tokens ==> m.handleHash in c.families.tokens)
      && (grant.Some? ==> grant.value.sid in u.families.grants ==> grant.value.sid in c.families.grants)
    case SaveActions(batch, _, _, _, now) =>
      // Actions are created for grants that were just listed as unexpired.
      forall i :: 0 <= i < |batch| ==>
        && (batch[i].hash in u.flow.actions ==> batch[i].hash in c.flow.actions)
        && (batch[i].sid in u.families.grants ==> now < u.families.grants[batch[i].sid].absoluteExpiry)
    case SaveOtp(id, _, _, _, _, _) => id in u.otp.challenges ==> id in c.otp.challenges
    case _ => FreshFlow(u.flow, c.flow, op)
  }

  // ---- One request -----------------------------------------------------------------------------

  ghost predicate Applicable(u: Families, c: Families, s: R.Step, now: int) {
    SimFamilies(u, c, now) && FreshFamily(u, c, s) && (!s.Release? && !s.Abort? ==> s.now == now)
  }

  // A step without a rotation changes at most one grant row, and the same way in both runs.
  ghost predicate Agree(u: Families, c: Families, s: R.Step, sid: string) {
    var u2, c2 := R.Apply(u, s), R.Apply(c, s);
    && FamilyReply(u, s) == FamilyReply(c, s)
    && u2.tokens == u.tokens && c2.tokens == c.tokens
    && u2.grants.Keys == u.grants.Keys && c2.grants.Keys == c.grants.Keys
    && (forall k :: k in u.grants && k != sid ==> u2.grants[k] == u.grants[k])
    && (forall k :: k in c.grants && k != sid ==> c2.grants[k] == c.grants[k])
    && (sid in c.grants ==> sid in u2.grants && c2.grants[sid] == u2.grants[sid])
    && (sid in u.grants ==> u2.grants[sid].absoluteExpiry == u.grants[sid].absoluteExpiry)
  }

  lemma AgreeKeeps(u: Families, c: Families, s: R.Step, sid: string, now: int)
    requires SimFamilies(u, c, now) && Agree(u, c, s, sid)
    ensures SimFamilies(R.Apply(u, s), R.Apply(c, s), now)
  {
    hide R.Apply, FamilyReply;
  }

  // What the relation says about one handle and one family.
  lemma PointView(u: Families, c: Families, h: Digest, sid: string, now: int)
    requires SimFamilies(u, c, now)
    ensures h in c.tokens <==> h in u.tokens && u.tokens[h].sid in c.grants
    ensures h in c.tokens ==> c.tokens[h] == u.tokens[h]
    ensures h in u.tokens ==> u.tokens[h].sid in u.grants
    ensures sid in c.grants ==> sid in u.grants && u.grants[sid] == c.grants[sid]
    ensures sid in u.grants && sid !in c.grants ==> u.grants[sid].absoluteExpiry <= now
  {
  }

  // The step's own row comes out the same, and a row only cleanup removed is not missed.
  ghost predicate SameRow(u: Families, c: Families, s: R.Step, sid: string) {
    && FamilyReply(u, s) == FamilyReply(c, s)
    && (sid in c.grants ==>
          && sid in u.grants && sid in R.Apply(u, s).grants && sid in R.Apply(c, s).grants
          && R.Apply(c, s).grants[sid] == R.Apply(u, s).grants[sid])
    && (sid !in c.grants ==> R.Apply(c, s) == c)
  }

  lemma SimClaim(u: Families, c: Families, s: R.Step, now: int)
    requires Applicable(u, c, s, now) && s.Claim?
    ensures SameRow(u, c, s, R.Target(u, s))
  {
    hide SimFamilies;
    PointView(u, c, s.current.handleHash, R.Target(u, s), now);
  }

  lemma SimFence(u: Families, c: Families, s: R.Step, now: int)
    requires Applicable(u, c, s, now) && (s.Mark? || s.Release? || s.Abort?)
    ensures SameRow(u, c, s, R.Target(u, s))
  {
    hide SimFamilies;
    PointView(u, c, Zeroed, s.sid, now);
  }

  lemma SimRevoke(u: Families, c: Families, s: R.Step, now: int)
    requires Applicable(u, c, s, now) && (s.Revoke? || s.RevokeToken? || s.SelfRevoke?)
    ensures SameRow(u, c, s, R.Target(u, s))
  {
    hide SimFamilies;
    PointView(u, c, if s.RevokeToken? then s.current.handleHash else Zeroed, R.Target(u, s), now);
  }

  lemma SimRevokeByCredential(u: Families, c: Families, s: R.Step, now: int)
    requires Applicable(u, c, s, now) && s.RevokeByCredential?
    ensures SameRow(u, c, s, R.Target(u, s))
  {
    hide SimFamilies;
    PointView(u, c, if s.presented.refresh.Some? then
      s.presented.refresh.value.handleHash else Zeroed, R.Target(u, s), now);
  }

  lemma SimQuiet(u: Families, c: Families, s: R.Step, now: int)
    requires Applicable(u, c, s, now) && R.Quiet(s)
    ensures Agree(u, c, s, R.Target(u, s))
  {
    hide R.Apply, FamilyReply, SimFamilies, R.Tweaked;
    if s.Claim? {
      SimClaim(u, c, s, now);
    } else if s.RevokeByCredential? {
      SimRevokeByCredential(u, c, s, now);
    } else if s.Mark? || s.Release? || s.Abort? {
      SimFence(u, c, s, now);
    } else {
      SimRevoke(u, c, s, now);
    }
    SameTarget(u, c, s, now);
    R.QuietRow(u, s);
    R.QuietRow(c, s);
    TweakKeepsAbsolute(u, s);
  }

  lemma TweakKeepsAbsolute(f: Families, s: R.Step)
    requires R.Quiet(s)
    ensures R.Target(f, s) in f.grants ==>
      && R.Target(f, s) in R.Apply(f, s).grants
      && R.Apply(f, s).grants[R.Target(f, s)].absoluteExpiry == f.grants[R.Target(f, s)].absoluteExpiry
  {
    hide R.Apply;
    R.QuietRow(f, s);
  }

  lemma SameTarget(u: Families, c: Families, s: R.Step, now: int)
    requires SimFamilies(u, c, now)
    ensures R.Target(u, s) in c.grants ==> R.Target(c, s) == R.Target(u, s)
  {
  }

  // A rotation happens in both runs or in neither.
  lemma SimComplete(u: Families, c: Families, s: R.Step, now: int)
    requires Applicable(u, c, s, now) && s.Complete?
    ensures FamilyReply(u, s) == FamilyReply(c, s)
    ensures FamilyReply(u, s) == Refused ==> R.Apply(u, s) == u && R.Apply(c, s) == c
    ensures FamilyReply(u, s) != Refused ==> Rotates(u, c, s)
  {
    hide SimFamilies;
    PointView(u, c, s.current.handleHash, s.sid, now);
    PointView(u, c, s.replacement.handleHash, s.sid, now);
  }

  lemma SimRotate(u: Families, c: Families, s: R.Step, now: int)
    requires Applicable(u, c, s, now) && s.Rotate?
    ensures FamilyReply(u, s) == FamilyReply(c, s)
    ensures FamilyReply(u, s) != Refused ==> Rotates(u, c, s)
  {
    hide SimFamilies;
    var h := s.current.handleHash;
    PointView(u, c, h, if h in u.tokens then u.tokens[h].sid else "", now);
    PointView(u, c, s.replacement.handleHash, "", now);
  }

  lemma SimRotateRefused(u: Families, c: Families, s: R.Step, now: int)
    requires Applicable(u, c, s, now) && s.Rotate? && FamilyReply(u, s) == Refused && FamilyReply(c, s) == Refused
    ensures Agree(u, c, s, if s.current.handleHash in u.tokens then u.tokens[s.current.handleHash].sid else "")
  {
    hide SimFamilies;
    var h := s.current.handleHash;
    PointView(u, c, h, if h in u.tokens then u.tokens[h].sid else "", now);
  }

  ghost predicate Rotates(u: Families, c: Families, s: R.Step)
    requires s.Complete? || s.Rotate?
  {
    var u2, c2, h, r := R.Apply(u, s), R.Apply(c, s), s.current.handleHash, s.replacement.handleHash;
    && h in c.tokens && h in u.tokens && c.tokens[h].sid == u.tokens[h].sid && c.tokens[h].sid in c.grants
    && h != r
    && h in u2.tokens && r in u2.tokens
    && var sid := u.tokens[h].sid;
    && sid in u2.grants && sid in c2.grants && u2.grants[sid] == c2.grants[sid]
    && u2.grants == u.grants[sid := u2.grants[sid]] && c2.grants == c.grants[sid := u2.grants[sid]]
    && u2.tokens == u.tokens[h := u2.tokens[h]][r := u2.tokens[r]]
      && c2.tokens == c.tokens[h := u2.tokens[h]][r := u2.tokens[r]]
    && u2.tokens[h].sid == sid && u2.tokens[r].sid == sid
  }

  lemma RotatesKeeps(u: Families, c: Families, s: R.Step, now: int)
    requires SimFamilies(u, c, now) && (s.Complete? || s.Rotate?) && Rotates(u, c, s)
    ensures SimFamilies(R.Apply(u, s), R.Apply(c, s), now)
  {
    hide R.Apply;
  }

  // A family is created in both runs or in neither, and is new to both.
  lemma SameCreation(u: Families, c: Families, s: R.Step, now: int)
    requires Applicable(u, c, s, now) && s.Create?
    ensures R.Created(u, s, s.sid) == R.Created(c, s, s.sid) && FamilyReply(u, s) == FamilyReply(c, s)
    ensures R.Created(u, s, s.sid) ==> s.sid !in u.grants && s.material.handleHash !in u.tokens
  {
    PointView(u, c, s.material.handleHash, s.sid, now);
    hide SimFamilies;
  }

  lemma CreationAdds(f: Families, s: R.Step)
    requires s.Create?
    ensures !R.Created(f, s, s.sid) ==> R.Apply(f, s) == f
    ensures R.Created(f, s, s.sid) ==>
      var (g, t) := NewRows(s);
      R.Apply(f, s) == Families(f.grants[s.sid := g], f.tokens[s.material.handleHash := t])
  {
  }

  function NewRows(s: R.Step): (Grant, Token)
    requires s.Create?
  {
    var expires := Min(s.now + s.profile.idleTtl, s.absoluteExpiry);
    (Grant(s.profile, s.credential, s.upstream, s.now, expires, s.absoluteExpiry, None, None, false),
     Token(s.material.tokenHash, s.sid, s.now, expires, None, None))
  }

  lemma SimCreate(u: Families, c: Families, s: R.Step, now: int)
    requires Applicable(u, c, s, now) && s.Create?
    ensures FamilyReply(u, s) == FamilyReply(c, s)
    ensures SimFamilies(R.Apply(u, s), R.Apply(c, s), now)
    ensures R.Created(u, s, s.sid) == R.Created(c, s, s.sid)
    ensures R.Apply(u, s).grants.Keys == if R.Created(u, s, s.sid) then u.grants.Keys + {s.sid} else u.grants.Keys
    ensures R.Apply(c, s).grants.Keys == if R.Created(u, s, s.sid) then c.grants.Keys + {s.sid} else c.grants.Keys
    ensures R.Created(u, s, s.sid) ==> s.sid !in u.grants
  {
    SameCreation(u, c, s, now);
    CreationAdds(u, s);
    CreationAdds(c, s);
    hide R.Apply, FamilyReply, R.Created, NewRows, SimFamilies;
    if R.Created(u, s, s.sid) {
      var (g, t) := NewRows(s);
      NewRowsFit(s);
      SimAdded(u, c, s.sid, s.material.handleHash, g, t, now);
    }
  }

  lemma NewRowsFit(s: R.Step)
    requires s.Create?
    ensures NewRows(s).1.sid == s.sid
  {
  }

  lemma SimAdded(u: Families, c: Families, sid: string, h: Digest, g: Grant, t: Token, now: int)
    requires SimFamilies(u, c, now) && sid !in u.grants && h !in u.tokens && t.sid == sid
    ensures SimFamilies(Families(u.grants[sid := g], u.tokens[h := t]), Families(c.grants[sid := g], c.tokens[h := t]),
      now)
  {
  }

  // No step but a creation changes which families exist, and a created one is new to both runs.
  lemma SimFamilyStep(u: Families, c: Families, s: R.Step, now: int)
    requires Applicable(u, c, s, now)
    ensures SimFamilies(R.Apply(u, s), R.Apply(c, s), now)
    ensures FamilyReply(u, s) == FamilyReply(c, s)
    ensures u.grants.Keys <= R.Apply(u, s).grants.Keys && c.grants.Keys <= R.Apply(c, s).grants.Keys
    ensures forall sid :: sid in R.Apply(c, s).grants && sid !in c.grants ==> sid !in u.grants
  {
    hide R.Apply, FamilyReply, SimFamilies;
    if s.Create? {
      SimCreate(u, c, s, now);
    } else if s.Complete? {
      SimComplete(u, c, s, now);
      if FamilyReply(u, s) != Refused {
        RotatesKeeps(u, c, s, now);
      }
    } else if s.Rotate? {
      SimRotate(u, c, s, now);
      if FamilyReply(u, s) != Refused {
        RotatesKeeps(u, c, s, now);
      } else {
        SimRotateRefused(u, c, s, now);
        AgreeKeeps(u, c, s, if s.current.handleHash in u.tokens then u.tokens[s.current.handleHash].sid else "", now);
      }
    } else {
      SimQuiet(u, c, s, now);
      AgreeKeeps(u, c, s, R.Target(u, s), now);
    }
  }

  ghost predicate FlowAgree(u: Flow, c: Flow, op: Op, grants: set<string>, now: int) {
    && SimFlow(PerformFlow(u, op).0, PerformFlow(c, op).0, grants, now)
    && PerformFlow(u, op).1 == PerformFlow(c, op).1
    && PerformFlow(u, op).0.actions == u.actions
  }

  ghost predicate FlowApplicable(u: Flow, c: Flow, op: Op, grants: set<string>, now: int) {
    SimFlow(u, c, grants, now) && FreshFlow(u, c, op) && !op.Family? && op.now == now && (op.TakeS? ==>
      now <= op.checked)
  }

  lemma SimSaveState(u: Flow, c: Flow, grants: set<string>, now: int, token: string, s: OAuthState)
    requires SimFlow(u, c, grants, now) && (token in u.states ==> token in c.states)
    ensures SimFlow(SaveState(u, token, s).0, SaveState(c, token, s).0, grants, now)
    ensures SaveState(u, token, s).1 == SaveState(c, token, s).1
  {
    hide SimCodes, SimCredentials, SimSelections, SimActions, SimPushed;
  }

  lemma SimTakeState(u: Flow, c: Flow, grants: set<string>, now: int, token: string, checked: int)
    requires SimFlow(u, c, grants, now) && now <= checked
    ensures SimFlow(GetAndDeleteState(u, token, now, checked).0, GetAndDeleteState(c, token, now, checked).0, grants,
      now)
    ensures GetAndDeleteState(u, token, now, checked).1 == GetAndDeleteState(c, token, now, checked).1
  {
    hide SimCodes, SimCredentials, SimSelections, SimActions, SimPushed;
  }

  lemma SimPeekState(u: Flow, c: Flow, grants: set<string>, now: int, token: string)
    requires SimFlow(u, c, grants, now)
    ensures PeekState(u, token, now) == PeekState(c, token, now)
  {
    hide SimCodes, SimCredentials, SimSelections, SimActions, SimPushed;
  }

  lemma SimSaveCode(u: Flow, c: Flow, grants: set<string>, now: int, code: string, row: AuthCode)
    requires SimFlow(u, c, grants, now) && (code in u.codes ==> code in c.codes)
    ensures SimFlow(SaveAuthCode(u, code, row).0, SaveAuthCode(c, code, row).0, grants, now)
    ensures SaveAuthCode(u, code, row).1 == SaveAuthCode(c, code, row).1
  {
    hide SimStates, SimCredentials, SimSelections, SimActions, SimPushed;
  }

  lemma SimPeekCode(u: Flow, c: Flow, grants: set<string>, now: int, code: string)
    requires SimFlow(u, c, grants, now)
    ensures PeekAuthCode(u, code, now) == PeekAuthCode(c, code, now)
  {
    hide SimStates, SimCredentials, SimSelections, SimActions, SimPushed;
  }

  lemma SimLoadCredential(
    u: Flow, c: Flow, grants: set<string>, now: int, id: string, clientId: string, connectorId: string)
    requires SimFlow(u, c, grants, now)
    ensures LoadFlowCredential(u, id, clientId, connectorId, now)
      == LoadFlowCredential(c, id, clientId, connectorId, now)
  {
    hide SimStates, SimCodes, SimSelections, SimActions, SimPushed;
  }

  lemma SimTakeSelection(u: Flow, c: Flow, grants: set<string>, now: int, hash: Digest)
    requires SimFlow(u, c, grants, now)
    ensures SimFlow(ConsumeIdentitySelection(u, hash, now).0, ConsumeIdentitySelection(c, hash, now).0, grants, now)
    ensures ConsumeIdentitySelection(u, hash, now).1 == ConsumeIdentitySelection(c, hash, now).1
  {
    hide SimStates, SimCodes, SimCredentials, SimActions, SimPushed;
  }

  lemma SimSavePushed(u: Flow, c: Flow, grants: set<string>, now: int, uri: string, p: PushedRequest)
    requires SimFlow(u, c, grants, now) && (uri in u.pushed ==> uri in c.pushed)
    ensures SimFlow(SavePushedRequest(u, uri, p).0, SavePushedRequest(c, uri, p).0, grants, now)
    ensures SavePushedRequest(u, uri, p).1 == SavePushedRequest(c, uri, p).1
  {
    hide SimStates, SimCodes, SimCredentials, SimSelections, SimActions;
  }

  lemma SimTakePushed(u: Flow, c: Flow, grants: set<string>, now: int, uri: string, clientId: string)
    requires SimFlow(u, c, grants, now)
    ensures SimFlow(ConsumePushedRequest(u, uri, clientId, now).0, ConsumePushedRequest(c, uri, clientId, now).0,
      grants, now)
    ensures ConsumePushedRequest(u, uri, clientId, now).1 == ConsumePushedRequest(c, uri, clientId, now).1
  {
    hide SimStates, SimCodes, SimCredentials, SimSelections, SimActions;
  }

  lemma SimSaveCredential(
    u: Flow, c: Flow, grants: set<string>, now: int, from: string, to: string, row: FlowCredential)
    requires SimFlow(u, c, grants, now)
    ensures SimFlow(SaveFlowCredential(u, from, to, row), SaveFlowCredential(c, from, to, row), grants, now)
  {
    hide SimStates, SimCodes, SimSelections, SimActions, SimPushed;
  }

  // A selection touches its own table and the expiry of one state, and nothing else.
  lemma SelectionTables(
    f: Flow, now: int, hash: Digest, token: string, connectorId: string, subject: string, emails: seq<Email>,
    stateTtl: int, selectionTtl: int)
    ensures var f2 :=
      CreateIdentitySelection(f, hash, token, connectorId, subject, emails, stateTtl, selectionTtl, now).0;
      f2 == f.(states := f2.states, selections := f2.selections)
  {
  }

  lemma SimSelectionTables(
    u: Flow, c: Flow, now: int, hash: Digest, token: string, connectorId: string, subject: string,
    emails: seq<Email>, stateTtl: int, selectionTtl: int)
    requires SimStates(u.states, c.states, now) && SimSelections(u.selections, c.selections, now)
    requires hash in u.selections ==> hash in c.selections
    ensures
      var (u2, ru) := CreateIdentitySelection(u, hash, token, connectorId, subject, emails, stateTtl, selectionTtl,
        now);
      var (c2, rc) := CreateIdentitySelection(c, hash, token, connectorId, subject, emails, stateTtl, selectionTtl,
        now);
      SimStates(u2.states, c2.states, now) && SimSelections(u2.selections, c2.selections, now) && ru == rc
  {
  }

  lemma SimSaveSelection(
    u: Flow, c: Flow, grants: set<string>, now: int, hash: Digest, token: string, connectorId: string, subject: string,
    emails: seq<Email>, stateTtl: int, selectionTtl: int)
    requires SimFlow(u, c, grants, now) && (hash in u.selections ==> hash in c.selections)
    ensures
      var (u2, ru) := CreateIdentitySelection(u, hash, token, connectorId, subject, emails, stateTtl, selectionTtl,
        now);
      var (c2, rc) := CreateIdentitySelection(c, hash, token, connectorId, subject, emails, stateTtl, selectionTtl,
        now);
      SimFlow(u2, c2, grants, now) && ru == rc
  {
    SelectionTables(u, now, hash, token, connectorId, subject, emails, stateTtl, selectionTtl);
    SelectionTables(c, now, hash, token, connectorId, subject, emails, stateTtl, selectionTtl);
    SimSelectionTables(u, c, now, hash, token, connectorId, subject, emails, stateTtl, selectionTtl);
    hide CreateIdentitySelection, SimStates, SimSelections, SimCodes, SimCredentials, SimActions, SimPushed;
  }

  lemma FlowActionsKept(f: Flow, op: Op)
    ensures PerformFlow(f, op).0.actions == f.actions
  {
  }

  lemma SimFlowStep(u: Flow, c: Flow, grants: set<string>, op: Op, now: int)
    requires FlowApplicable(u, c, op, grants, now)
    ensures FlowAgree(u, c, op, grants, now)
  {
    hide SimFlow, SaveState, GetAndDeleteState, PeekState, SaveAuthCode, PeekAuthCode, SaveFlowCredential,
      LoadFlowCredential,
      CreateIdentitySelection, ConsumeIdentitySelection, SavePushedRequest, ConsumePushedRequest;
    FlowActionsKept(u, op);
    match op
    case SaveS(token, s, t) => SimSaveState(u, c, grants, now, token, s);
    case TakeS(token, t, checked) => SimTakeState(u, c, grants, now, token, checked);
    case PeekS(token, t) => SimPeekState(u, c, grants, now, token);
    case SaveC(code, row, t) => SimSaveCode(u, c, grants, now, code, row);
    case PeekC(code, t) => SimPeekCode(u, c, grants, now, code);
    case SaveF(from, to, row, t) => SimSaveCredential(u, c, grants, now, from, to, row);
    case LoadF(id, clientId, connectorId, t) => SimLoadCredential(u, c, grants, now, id, clientId, connectorId);
    case SaveSelection(hash, token, connectorId, subject, emails, stateTtl, selectionTtl, t) =>
      SimSaveSelection(u, c, grants, now, hash, token, connectorId, subject, emails, stateTtl, selectionTtl);
    case TakeSelection(hash, t) => SimTakeSelection(u, c, grants, now, hash);
    case SaveP(uri, p, t) => SimSavePushed(u, c, grants, now, uri, p);
    case TakeP(uri, clientId, t) => SimTakePushed(u, c, grants, now, uri, clientId);
    case _ =>
  }

  lemma SameQuota(u: Otp, c: Otp, email: string, now: int)
    requires SimOtp(u, c, now)
    ensures Recent(u.sends, email, now - HOUR) == Recent(c.sends, email, now - HOUR)
    ensures QuotaRefusal(u.sends, email, now) == QuotaRefusal(c.sends, email, now)
  {
    var rows := Recent(u.sends, email, now - HOUR);
    assert rows == Recent(c.sends, email, now - HOUR);
    if rows != {} {
      var a := Oldest(u.sends, rows);
      var b := Oldest(c.sends, rows);
      assert a <= b && b <= a;
    }
  }

  lemma SimRecord(u: Otp, c: Otp, id: string, row: Challenge, now: int)
    requires SimOtp(u, c, now)
    ensures SimOtp(Record(u, id, row, now), Record(c, id, row, now), now)
  {
  }

  lemma SimSaveOtp(u: Otp, c: Otp, id: string, email: string, mac: Mac, flow: OtpFlow, ttl: int, now: int)
    requires SimOtp(u, c, now) && (id in u.challenges ==> id in c.challenges)
    ensures SimOtp(CreateOtp(u, id, email, mac, flow, now, ttl).0, CreateOtp(c, id, email, mac, flow, now, ttl).0, now)
    ensures CreateOtp(u, id, email, mac, flow, now, ttl).1 == CreateOtp(c, id, email, mac, flow, now, ttl).1
  {
    SameQuota(u, c, email, now);
    SimRecord(u, c, id, Challenge(email, mac, flow, 0, 1, now, now, now + ttl), now);
    assert id in c.challenges <==> id in u.challenges;
    hide SimOtp, Recent, Record;
  }

  lemma SameRefusal(u: Otp, c: Otp, id: string, now: int)
    requires SimOtp(u, c, now)
    ensures ResendRefusal(u, id, now) == ResendRefusal(c, id, now)
    ensures ResendRefusal(u, id, now).None? ==>
      id in u.challenges && id in c.challenges && u.challenges[id] == c.challenges[id]
  {
    if id in c.challenges {
      SameQuota(u, c, c.challenges[id].email, now);
    }
    hide QuotaRefusal;
  }

  lemma SimResend(u: Otp, c: Otp, id: string, mac: Mac, ttl: int, now: int)
    requires SimOtp(u, c, now)
    ensures SimOtp(ResendOtp(u, id, mac, now, ttl).0, ResendOtp(c, id, mac, now, ttl).0, now)
    ensures ResendOtp(u, id, mac, now, ttl).1 == ResendOtp(c, id, mac, now, ttl).1
  {
    hide SimOtp, Record, ResendRefusal;
    SameRefusal(u, c, id, now);
    if ResendRefusal(c, id, now).None? {
      var row := c.challenges[id];
      SimRecord(u, c, id, row.(mac := mac, attempts := 0, sends := row.sends + 1, sentAt := now,
        expiresAt := now + ttl), now);
    }
  }

  lemma SimTakeOtp(u: Otp, c: Otp, id: string, mac: Mac, now: int)
    requires SimOtp(u, c, now)
    ensures SimOtp(ConsumeOtp(u, id, mac, now).0, ConsumeOtp(c, id, mac, now).0, now)
    ensures ConsumeOtp(u, id, mac, now).1 == ConsumeOtp(c, id, mac, now).1
    ensures OtpFlowOf(u, id, now) == OtpFlowOf(c, id, now)
  {
  }

  lemma SimOtpStep(u: Otp, c: Otp, op: Op, now: int)
    requires SimOtp(u, c, now) && !op.Family? && op.now == now
    requires op.SaveOtp? ==> op.id in u.challenges ==> op.id in c.challenges
    ensures SimOtp(PerformOtp(u, op).0, PerformOtp(c, op).0, now)
    ensures PerformOtp(u, op).1 == PerformOtp(c, op).1
  {
    hide SimOtp, CreateOtp, ResendOtp, ConsumeOtp, OtpFlowOf;
    match op
    case SaveOtp(id, email, mac, flow, ttl, t) => SimSaveOtp(u, c, id, email, mac, flow, ttl, now);
    case ResendO(id, mac, ttl, t) => SimResend(u, c, id, mac, ttl, now);
    case PeekOtp(id, t) => SimTakeOtp(u, c, id, Mac([], "", ""), now);
    case TakeOtp(id, mac, t) => SimTakeOtp(u, c, id, mac, now);
    case _ =>
  }

  // ---- Requests that span tables -----------------------------------------------------------------

  lemma SimPrepare(u: Families, c: Families, m: RefreshMaterial, clientId: string, now: int)
    requires SimFamilies(u, c, now)
    ensures var (ru, rc) := (PrepareRefresh(u, m, clientId, now), PrepareRefresh(c, m, clientId, now));
            (ru.Ok? || rc.Ok?) ==> ru == rc
  {
    hide SimFamilies;
    PointView(u, c, m.handleHash, if m.handleHash in u.tokens then u.tokens[m.handleHash].sid else "", now);
  }

  // Families created by a step are new to both runs, so no action of a removed family returns.
  lemma SimGrow(u: Db, c: Db, s: R.Step, now: int)
    requires Sim(u, c, now) && Applicable(u.families, c.families, s, now)
    ensures Sim(u.(families := R.Apply(u.families, s)), c.(families := R.Apply(c.families, s)), now)
    ensures FamilyReply(u.families, s) == FamilyReply(c.families, s)
  {
    hide R.Apply, FamilyReply, SimStates, SimCodes, SimCredentials, SimSelections, SimPushed, SimOtp, SimFamilies,
      Applicable;
    SimFamilyStep(u.families, c.families, s, now);
  }

  lemma SimTakeCode(
    u: Db, c: Db, code: string, expected: AuthCode, binding: AuthCodeBinding, grant: Option<NewGrant>,
    m: RefreshMaterial, now: int)
    requires Sim(u, c, now) && Fresh(u, c, TakeC(code, expected, binding, grant, m, now))
    ensures var (u2, ru) := ConsumeAuthCode(u, code, expected, binding, grant, m, now);
            var (c2, rc) := ConsumeAuthCode(c, code, expected, binding, grant, m, now);
            Sim(u2, c2, now) && Plain(ru) == Plain(rc)
  {
    hide Sim, CodeMatches;
    SameCode(u, c, code, expected, binding, now);
    if grant.Some? {
      SimCreated(u, c, code, grant.value, m, now);
    } else {
      SimWithoutCode(u, c, code, now);
    }
  }

  // The family half of a code exchange, with the code and its credential gone or not.
  lemma SimCreated(u: Db, c: Db, code: string, g: NewGrant, m: RefreshMaterial, now: int)
    requires Sim(u, c, now)
    requires m.handleHash in u.families.tokens ==> m.handleHash in c.families.tokens
    requires g.sid in u.families.grants ==> g.sid in c.families.grants
    ensures var (fu, ru) := CreateGrant(u.families, g.sid, g.profile, g.credential, g.upstream, g.absoluteExpiry, m,
      now);
            var (fc, rc) := CreateGrant(c.families, g.sid, g.profile, g.credential, g.upstream, g.absoluteExpiry, m,
              now);
            var (wu, wc) := (u.flow.(codes := u.flow.codes - {code}), c.flow.(codes := c.flow.codes - {code}));
            && Plain(ru) == Plain(rc)
            && Sim(u.(families := fu, flow := wu), c.(families := fc, flow := wc), now)
            && Sim(u.(families := fu, flow := wu.(credentials := wu.credentials - {code})),
                   c.(families := fc, flow := wc.(credentials := wc.credentials - {code})), now)
  {
    hide Sim, CreateGrant, R.Apply, FamilyReply, SimFamilies;
    var s := R.Create(g.sid, g.profile, g.credential, g.upstream, g.absoluteExpiry, m, now);
    CreationIsStep(u.families, g, m, now);
    CreationIsStep(c.families, g, m, now);
    SimParts(u, c, now);
    SimGrow(u, c, s, now);
    SimWithoutCode(u.(families := R.Apply(u.families, s)), c.(families := R.Apply(c.families, s)), code, now);
  }

  lemma SameCode(u: Db, c: Db, code: string, expected: AuthCode, binding: AuthCodeBinding, now: int)
    requires Sim(u, c, now)
    ensures CodeMatches(u.flow, code, expected, binding, now) == CodeMatches(c.flow, code, expected, binding, now)
  {
    hide SimFamilies, SimOtp, SimActions, SimStates, SimSelections, SimCredentials, SimPushed;
  }

  lemma CreationIsStep(f: Families, g: NewGrant, m: RefreshMaterial, now: int)
    ensures var s := R.Create(g.sid, g.profile, g.credential, g.upstream, g.absoluteExpiry, m, now);
            var created := CreateGrant(f, g.sid, g.profile, g.credential, g.upstream, g.absoluteExpiry, m, now);
            R.Apply(f, s) == created.0 && FamilyReply(f, s) == Plain(created.1)
  {
  }

  lemma SimWithoutCode(u: Db, c: Db, code: string, now: int)
    requires Sim(u, c, now)
    ensures var (fu, fc) := (u.flow.(codes := u.flow.codes - {code}), c.flow.(codes := c.flow.codes - {code}));
      && Sim(u.(flow := fu), c.(flow := fc), now)
      && Sim(u.(flow := fu.(credentials := fu.credentials - {code})),
        c.(flow := fc.(credentials := fc.credentials - {code})), now)
  {
    hide SimStates, SimSelections, SimActions, SimPushed, SimOtp, SimFamilies;
  }

  lemma {:induction false} ActionRowsOf(batch: seq<GrantAction>, email: string, action: string, now: int, expiry: int)
    ensures forall k :: k in ActionRows(batch, email, action, now, expiry) ==>
      exists i :: 0 <= i < |batch| && batch[i].hash == k
        && ActionRows(batch, email, action, now, expiry)[k].sid == batch[i].sid
  {
    if |batch| > 0 {
      ActionRowsOf(batch[..|batch| - 1], email, action, now, expiry);
      var rows := ActionRows(batch[..|batch| - 1], email, action, now, expiry);
      forall k | k in ActionRows(batch, email, action, now, expiry)
        ensures exists i ::
          0 <= i < |batch| && batch[i].hash == k && ActionRows(batch, email, action, now, expiry)[k].sid == batch[i].sid
      {
        if k != batch[|batch| - 1].hash {
          var i :| 0 <= i < |batch| - 1 && batch[..|batch| - 1][i].hash == k
            && rows[k].sid == batch[..|batch| - 1][i].sid;
          assert batch[i].hash == k;
        }
      }
    }
  }

  lemma ActionsAdded(
    u: map<Digest, Action>, c: map<Digest, Action>, grants: set<string>, rows: map<Digest, Action>, now: int)
    requires SimActions(u, c, grants, now)
    ensures SimActions(u + rows, c + rows, grants, now)
  {
  }

  lemma SimAddActions(u: Db, c: Db, rows: map<Digest, Action>, now: int)
    requires Sim(u, c, now) && forall k :: k in rows ==> rows[k].sid in c.families.grants
    ensures Sim(u.(flow := u.flow.(actions := u.flow.actions + rows)),
      c.(flow := c.flow.(actions := c.flow.actions + rows)), now)
  {
    hide SimStates, SimCodes, SimCredentials, SimSelections, SimPushed, SimOtp, SimActions;
    ActionsAdded(u.flow.actions, c.flow.actions, c.families.grants.Keys, rows, now);
  }

  lemma SameInsertable(u: Db, c: Db, batch: seq<GrantAction>, email: string, action: string, expiry: int, now: int)
    requires Sim(u, c, now) && Fresh(u, c, SaveActions(batch, email, action, expiry, now))
    ensures Insertable(u, batch) == Insertable(c, batch)
  {
    hide SimStates, SimCodes, SimCredentials, SimSelections, SimPushed, SimOtp;
  }

  lemma SimSaveActions(u: Db, c: Db, batch: seq<GrantAction>, email: string, action: string, expiry: int, now: int)
    requires Sim(u, c, now) && Fresh(u, c, SaveActions(batch, email, action, expiry, now))
    ensures Insertable(u, batch) == Insertable(c, batch)
    ensures Sim(InsertActions(u, batch, email, action, now, expiry).0,
      InsertActions(c, batch, email, action, now, expiry).0, now)
  {
    hide Sim, ActionRows;
    SameInsertable(u, c, batch, email, action, expiry, now);
    if Insertable(c, batch) {
      ActionRowsOf(batch, email, action, now, expiry);
      SimAddActions(u, c, ActionRows(batch, email, action, now, expiry), now);
    }
  }

  lemma SimTakeAction(u: Db, c: Db, hash: Digest, email: string, sid: string, action: string, now: int)
    requires Sim(u, c, now)
    ensures var (u2, ru) := ConsumeGrantActionAndRevoke(u, hash, email, sid, action, now);
            var (c2, rc) := ConsumeGrantActionAndRevoke(c, hash, email, sid, action, now);
            Sim(u2, c2, now) && ru == rc
  {
    var s := R.SelfRevoke(sid, email, now);
    PointView(u.families, c.families, Zeroed, sid, now);
    assert SelfRevocable(u.families, sid, email, now) == SelfRevocable(c.families, sid, email, now);
    assert SelfRevocable(c.families, sid, email, now) ==>
      ActionMatches(u.flow, hash, email, sid, action, now) == ActionMatches(c.flow, hash, email, sid, action, now);
    SimGrow(u, c, s, now);
    assert R.Apply(u.families, s) == RevokeOwn(u.families, sid, email, now);
    assert R.Apply(c.families, s) == RevokeOwn(c.families, sid, email, now);
    SimWithoutAction(u.(families := R.Apply(u.families, s)), c.(families := R.Apply(c.families, s)), hash, now);
    hide Sim, R.Apply, RevokeOwn, SelfRevocable, ActionMatches;
  }

  lemma SimWithoutAction(u: Db, c: Db, hash: Digest, now: int)
    requires Sim(u, c, now)
    ensures Sim(u.(flow := u.flow.(actions := u.flow.actions - {hash})),
      c.(flow := c.flow.(actions := c.flow.actions - {hash})), now)
  {
    hide SimStates, SimCodes, SimCredentials, SimSelections, SimPushed, SimOtp, SimFamilies;
  }

  lemma SimTables(u: Db, c: Db, op: Op, now: int)
    requires Sim(u, c, now) && Fresh(u, c, op) && Timed(op, now)
    requires !op.Family? && !op.Prepare? && !op.TakeC? && !op.SaveActions? && !op.TakeAction?
    ensures Sim(Perform(u, op).0, Perform(c, op).0, now)
    ensures Perform(u, op).1 == Perform(c, op).1
  {
    if op.SaveOtp? || op.ResendO? || op.PeekOtp? || op.TakeOtp? {
      SimOtpStep(u.otp, c.otp, op, now);
    } else {
      SimFlowStep(u.flow, c.flow, c.families.grants.Keys, op, now);
    }
    hide PerformFlow, PerformOtp, SimFlow, SimOtp, SimFamilies;
  }

  // The request's clock reading; a state's second reading is no earlier than its first.
  predicate Timed(op: Op, at: int) {
    (TimeOf(op).Some? ==> TimeOf(op).value == at) && (op.TakeS? ==> at <= op.checked)
  }

  // Every request is answered alike in both runs and leaves them related.
  lemma SimStep(u: Db, c: Db, op: Op, now: int)
    requires Sim(u, c, now) && Fresh(u, c, op) && Timed(op, now)
    ensures Sim(Perform(u, op).0, Perform(c, op).0, now)
    ensures Perform(u, op).1 == Perform(c, op).1
  {
    hide Sim, FamilyReply, R.Apply;
    match op
    case Family(s) =>
      SimParts(u, c, now);
      SimGrow(u, c, s, now);
    case Prepare(m, clientId, t) =>
      SimParts(u, c, now);
      SimPrepare(u.families, c.families, m, clientId, now);
    case TakeC(code, expected, binding, grant, m, t) => SimTakeCode(u, c, code, expected, binding, grant, m, now);
    case SaveActions(batch, email, action, expiry, t) => SimSaveActions(u, c, batch, email, action, expiry, now);
    case TakeAction(hash, email, sid, action, t) => SimTakeAction(u, c, hash, email, sid, action, now);
    case _ => SimTables(u, c, op, now);
  }

  lemma SimParts(u: Db, c: Db, now: int)
    requires Sim(u, c, now)
    ensures SimFamilies(u.families, c.families, now)
  {
  }

  // ---- Whole runs ------------------------------------------------------------------------------

  datatype Event = Request(op: Op, at: int) | Clean(sweep: Sweep, at: int)

  // The run as it is, and the same run with every cleanup left out.
  ghost function Cleaned(run: seq<Event>, n: nat): Db
    requires n <= |run|
  {
    if n == 0 then EMPTY
    else
      match run[n - 1]
      case Request(op, _) => Perform(Cleaned(run, n - 1), op).0
      case Clean(sweep, at) => CleanUp(Cleaned(run, n - 1), sweep, at)
  }

  ghost function Uncleaned(run: seq<Event>, n: nat): Db
    requires n <= |run|
  {
    if n == 0 then EMPTY
    else
      match run[n - 1]
      case Request(op, _) => Perform(Uncleaned(run, n - 1), op).0
      case Clean(_, _) => Uncleaned(run, n - 1)
  }

  const EMPTY := Db(Families(map[], map[]), Flow(map[], map[], map[], map[], map[], map[], map[]), Otp(map[], map[], 0))

  // The clock never goes back, requests run at their event's time, and identifiers are new.
  ghost predicate Proper(run: seq<Event>) {
    && (forall i, j :: 0 <= i <= j < |run| ==> run[i].at <= run[j].at)
    && (forall k :: 0 <= k < |run| && run[k].Request? ==>
      Timed(run[k].op, run[k].at) && Fresh(Uncleaned(run, k), Cleaned(run, k), run[k].op))
  }

  lemma SimLater(u: Db, c: Db, now: int, later: int)
    requires Sim(u, c, now) && now <= later
    ensures Sim(u, c, later)
  {
  }

  lemma SimEmpty(now: int)
    ensures Sim(EMPTY, EMPTY, now)
  {
  }

  lemma SimCleanFamilies(u: Families, c: Families, sids: set<string>, now: int)
    requires SimFamilies(u, c, now)
    ensures SimFamilies(u, RefreshFamilies.DeleteExpired(c, sids, now), now)
  {
  }

  lemma SimCleanOtp(u: Otp, c: Otp, ids: set<string>, rows: set<nat>, now: int)
    requires SimOtp(u, c, now)
    ensures SimOtp(u, OtpTables.DeleteExpired(c, ids, rows, now), now)
  {
  }

  lemma SimCleanActions(u: Db, c: Db, s: Sweep, now: int)
    requires Sim(u, c, now)
    ensures SimActions(u.flow.actions, CleanUp(c, s, now).flow.actions, CleanUp(c, s, now).families.grants.Keys, now)
  {
    hide SimStates, SimCodes, SimCredentials, SimSelections, SimPushed, SimOtp, SimFamilies;
  }

  lemma SimCleanFlow(u: Db, c: Db, s: Sweep, now: int)
    requires Sim(u, c, now)
    ensures SimFlow(u.flow, CleanUp(c, s, now).flow, CleanUp(c, s, now).families.grants.Keys, now)
  {
    hide SimFamilies, SimOtp, SimActions, SimStates, SimCodes, SimPushed, SimCredentials, SimSelections;
    SimCleanActions(u, c, s, now);
    SimCleanRequests(u, c, s, now);
    SimCleanIdentities(u, c, s, now);
  }

  lemma SimCleanRequests(u: Db, c: Db, s: Sweep, now: int)
    requires Sim(u, c, now)
    ensures var f := CleanUp(c, s, now).flow;
      SimStates(u.flow.states, f.states, now) && SimCodes(u.flow.codes, f.codes, now)
        && SimPushed(u.flow.pushed, f.pushed, now)
  {
    hide SimFamilies, SimOtp, SimActions, SimCredentials, SimSelections, RefreshFamilies.DeleteExpired,
      OtpTables.DeleteExpired;
  }

  lemma SimCleanIdentities(u: Db, c: Db, s: Sweep, now: int)
    requires Sim(u, c, now)
    ensures var f := CleanUp(c, s, now).flow;
      SimCredentials(u.flow.credentials, f.credentials, now) && SimSelections(u.flow.selections, f.selections, now)
  {
    hide SimFamilies, SimOtp, SimActions, SimStates, SimCodes, SimPushed, RefreshFamilies.DeleteExpired,
      OtpTables.DeleteExpired;
  }

  lemma SimClean(u: Db, c: Db, s: Sweep, now: int)
    requires Sim(u, c, now)
    ensures Sim(u, CleanUp(c, s, now), now)
  {
    hide SimFamilies, SimOtp, SimFlow;
    SimCleanFamilies(u.families, c.families, s.grants, now);
    SimCleanOtp(u.otp, c.otp, s.challenges, s.sends, now);
    SimCleanFlow(u, c, s, now);
    assert forall k :: k in u.flow.actions ==> u.flow.actions[k].sid in u.families.grants;
  }

  lemma {:induction false} RunsRelated(run: seq<Event>, n: nat)
    requires n <= |run| && Proper(run)
    ensures Sim(Uncleaned(run, n), Cleaned(run, n), if n == 0 then
      (if |run| > 0 then run[0].at else 0) else run[n - 1].at)
  {
    hide Sim, Perform, CleanUp, Fresh, Timed;
    if n == 0 {
      SimEmpty(if |run| > 0 then run[0].at else 0);
    } else {
      RunsRelated(run, n - 1);
      var u, c := Uncleaned(run, n - 1), Cleaned(run, n - 1);
      SimLater(u, c, if n == 1 then run[0].at else run[n - 2].at, run[n - 1].at);
      match run[n - 1]
      case Request(op, at) => SimStep(u, c, op, at);
      case Clean(sweep, at) => SimClean(u, c, sweep, at);
    }
  }

  // However often cleanup runs and whatever eligible rows it takes, every request is answered
  // as if nothing were ever deleted.
  lemma CleanupIsInvisible(run: seq<Event>, n: nat)
    requires n < |run| && Proper(run) && run[n].Request?
    ensures Perform(Cleaned(run, n), run[n].op).1 == Perform(Uncleaned(run, n), run[n].op).1
  {
    hide Sim, Perform, Fresh, Timed;
    RunsRelated(run, n);
    SimLater(Uncleaned(run, n), Cleaned(run, n), if n == 0 then run[0].at else run[n - 1].at, run[n].at);
    SimStep(Uncleaned(run, n), Cleaned(run, n), run[n].op, run[n].at);
  }

  // ---- Where cleanup can be told -----------------------------------------------------------------

  // A claim may outlive the absolute expiry of its family, and then its mark and its abort answer
  // differently once the expired row is gone. Nothing else makes a difference to them.
  predicate OutlivedBy(f: Families, sid: string, id: string, now: int) {
    HoldsClaim(f, sid, id) && f.grants[sid].revoked.None? && f.grants[sid].absoluteExpiry <= now
  }

  lemma CleanupVisibleToMark(f: Families, sid: string, id: string, now: int)
    ensures
      (forall sids, t :: t <= now ==>
         MarkUpstreamRefreshStarted(RefreshFamilies.DeleteExpired(f, sids, t), sid, id, now).1
         == MarkUpstreamRefreshStarted(f, sid, id, now).1)
      <==> !(OutlivedBy(f, sid, id, now) && now < f.grants[sid].claim.value.expiresAt)
  {
    var cleaned := RefreshFamilies.DeleteExpired(f, {sid}, now);
    assert OutlivedBy(f, sid, id, now) ==> sid !in cleaned.grants;
  }

  lemma CleanupVisibleToAbort(f: Families, sid: string, id: string, now: int)
    ensures
      (forall sids, t :: t <= now ==>
         AbortUpstreamRefresh(RefreshFamilies.DeleteExpired(f, sids, t), sid, id).1
           == AbortUpstreamRefresh(f, sid, id).1)
      <==> !OutlivedBy(f, sid, id, now)
  {
    var cleaned := RefreshFamilies.DeleteExpired(f, {sid}, now);
    assert OutlivedBy(f, sid, id, now) ==> sid !in cleaned.grants;
  }

  // An action for an expired family is stored only while the family's row is still there.
  lemma CleanupVisibleToActions(db: Db, batch: seq<GrantAction>, now: int)
    requires forall i :: 0 <= i < |batch| ==> batch[i].hash !in db.flow.actions
    ensures
      (forall sids, t :: t <= now ==>
         Insertable(db.(families := RefreshFamilies.DeleteExpired(db.families, sids, t)), batch)
           == Insertable(db, batch))
      <==> !(Insertable(db, batch)
             && exists i :: 0 <= i < |batch| && db.families.grants[batch[i].sid].absoluteExpiry <= now)
  {
    if Insertable(db, batch) && exists i :: 0 <= i < |batch| && db.families.grants[batch[i].sid].absoluteExpiry <= now {
      var i :| 0 <= i < |batch| && db.families.grants[batch[i].sid].absoluteExpiry <= now;
      assert batch[i].sid !in RefreshFamilies.DeleteExpired(db.families, {batch[i].sid}, now).grants;
    }
  }

  // A family that expires while a claim on it runs is reached in two steps, and the mark in a third.
  lemma ClaimOutlivesFamily(p: Profile, m: RefreshMaterial, id: string)
    ensures
      var run := [R.Create("sid", p, None, UpstreamExpiry(None, None, false), 10 * SECOND, m, 0),
                  R.Claim(m, p.clientId, 0, 30 * SECOND, id), R.Mark("sid", id, 10 * SECOND)];
      var claimed, marked := R.After(R.EMPTY, run, 2), R.After(R.EMPTY, run, 3);
      p.idleTtl > 0 ==>
        && MarkUpstreamRefreshStarted(claimed, "sid", id, 10 * SECOND).1 == Ok(())
        && MarkUpstreamRefreshStarted(RefreshFamilies.DeleteExpired(claimed, {"sid"}, 10 * SECOND), "sid", id,
          10 * SECOND).1.Err?
        && AbortUpstreamRefresh(marked, "sid", id).1 == Ok(())
        && AbortUpstreamRefresh(RefreshFamilies.DeleteExpired(marked, {"sid"}, 10 * SECOND), "sid", id).1.Err?
  {
    var run := [R.Create("sid", p, None, UpstreamExpiry(None, None, false), 10 * SECOND, m, 0),
                R.Claim(m, p.clientId, 0, 30 * SECOND, id), R.Mark("sid", id, 10 * SECOND)];
    assert R.After(R.EMPTY, run, 1) == R.Apply(R.EMPTY, run[0]);
    assert R.After(R.EMPTY, run, 2) == R.Apply(R.After(R.EMPTY, run, 1), run[1]);
    assert R.After(R.EMPTY, run, 3) == R.Apply(R.After(R.EMPTY, run, 2), run[2]);
  }

  // A family that has expired is reached in one step, and an action for it can be stored until it is deleted.
  lemma ExpiredFamilyLingers(p: Profile, m: RefreshMaterial, hash: Digest)
    ensures
      var run := [R.Create("sid", p, None, UpstreamExpiry(None, None, false), 10 * SECOND, m, 0)];
      var db, batch := EMPTY.(families := R.After(R.EMPTY, run, 1)), [GrantAction(hash, "sid")];
      && Insertable(db, batch)
      && "sid" in db.families.grants && db.families.grants["sid"].absoluteExpiry <= 10 * SECOND
      && !Insertable(db.(families := RefreshFamilies.DeleteExpired(db.families, {"sid"}, 10 * SECOND)), batch)
  {
    var run := [R.Create("sid", p, None, UpstreamExpiry(None, None, false), 10 * SECOND, m, 0)];
    assert R.After(R.EMPTY, run, 1) == R.Apply(R.EMPTY, run[0]);
    var f, batch := R.After(R.EMPTY, run, 1), [GrantAction(hash, "sid")];
    assert batch[0].sid !in RefreshFamilies.DeleteExpired(f, {"sid"}, 10 * SECOND).grants;
  }

  // ---- What cleanup is for ---------------------------------------------------------------------------

  // No row is left whose time is over, each table by its own test, and nothing of a family that is.
  ghost predicate Tidy(db: Db, now: int) {
    && (forall k :: k in db.flow.states ==> now <= db.flow.states[k].expiresAt)
    && (forall k :: k in db.flow.codes ==> now <= db.flow.codes[k].expiresAt)
    && (forall k :: k in db.flow.pushed ==> now <= db.flow.pushed[k].expiresAt)
    && (forall k :: k in db.flow.credentials ==> now < db.flow.credentials[k].expiresAt)
    && (forall k :: k in db.flow.selections ==> now < db.flow.selections[k].expiresAt)
    && (forall k :: k in db.flow.actions ==>
      now < db.flow.actions[k].expiresAt && db.flow.actions[k].sid in db.families.grants)
    && (forall k :: k in db.otp.challenges ==> now <= db.otp.challenges[k].expiresAt)
    && (forall k :: k in db.otp.sends ==> now - HOUR <= db.otp.sends[k].at)
    && (forall k :: k in db.families.grants ==> now < db.families.grants[k].absoluteExpiry)
    && (forall k :: k in db.families.tokens ==> db.families.tokens[k].sid in db.families.grants)
  }

  // The sweep has come across every row.
  predicate Thorough(db: Db, s: Sweep) {
    && db.flow.states.Keys <= s.states && db.flow.codes.Keys <= s.codes && db.flow.pushed.Keys <= s.pushed
    && db.flow.credentials.Keys <= s.credentials && db.flow.selections.Keys <= s.selections
    && db.flow.actions.Keys <= s.actions && db.otp.challenges.Keys <= s.challenges && db.otp.sends.Keys <= s.sends
    && db.families.grants.Keys <= s.grants
  }

  ghost predicate Rooted(db: Db) {
    && (forall k :: k in db.families.tokens ==> db.families.tokens[k].sid in db.families.grants)
    && (forall k :: k in db.flow.actions ==> db.flow.actions[k].sid in db.families.grants)
  }

  // A sweep of every row leaves none whose time is over, and no sweep changes a tidy database.
  lemma SweepsTidyUp(db: Db, s: Sweep, now: int)
    requires Rooted(db)
    ensures Thorough(db, s) ==> Tidy(CleanUp(db, s, now), now)
    ensures Tidy(db, now) ==> CleanUp(db, s, now) == db
  {
    SweepsFamilies(db.families, s.grants, now);
    hide RefreshFamilies.DeleteExpired;
    if Tidy(db, now) {
      var d := CleanUp(db, s, now);
      assert d.families == db.families;
      assert d.flow.states == db.flow.states && d.flow.codes == db.flow.codes && d.flow.pushed == db.flow.pushed;
      assert d.flow.credentials == db.flow.credentials && d.flow.selections == db.flow.selections;
      assert d.flow.actions == db.flow.actions;
      assert d.otp.challenges == db.otp.challenges && d.otp.sends == db.otp.sends;
    }
  }

  lemma SweepsFamilies(f: Families, sids: set<string>, now: int)
    ensures var f2 := RefreshFamilies.DeleteExpired(f, sids, now);
      && (f.grants.Keys <= sids ==> forall k :: k in f2.grants ==> now < f2.grants[k].absoluteExpiry)
      && (forall k :: k in f2.grants ==> k in f.grants && f2.grants[k] == f.grants[k])
      && ((forall k :: k in f.tokens ==> f.tokens[k].sid in f.grants) ==>
            forall k :: k in f2.tokens ==> f2.tokens[k].sid in f2.grants)
      && ((forall k :: k in f.grants ==> now < f.grants[k].absoluteExpiry) ==> f2 == f)
  {
    var f2 := RefreshFamilies.DeleteExpired(f, sids, now);
    if forall k :: k in f.grants ==> now < f.grants[k].absoluteExpiry {
      assert f2.grants == f.grants && f2.tokens == f.tokens;
    }
  }
}
