// The rules of the authorization flow, as a reader of the tables would put them: who gets a code,
// and what a page asks of the state it takes.
module FlowRules {
  import opened Common
  import opened RefreshFamilies
  import opened FlowTables
  import opened OtpTables
  import opened Database
  import opened AuthorizationFlow
  import opened FlowTheorems

  // The client may have codes for this redirect URI and this kind of request, the user is allowed
  // and has consented where that is asked for.
  predicate MayHaveCode(x: Context, v: View) {
    && x.purpose != "manage_grants" && v.known && v.redirectAllowed && v.userAllowed && v.acceptsBinding
    && (v.requirePar ==> x.pushed)
    && (x.refreshMode == "" || x.refreshMode == "session" || x.refreshMode == "offline")
    && (x.refreshMode != "" ==> v.refreshEnabled)
    && (x.refreshMode == "offline" ==> v.allowOffline && x.offlineConsent)
  }

  // Refresh tokens need a login connector, with a credential exactly if it is not an email one.
  predicate Backed(cfg: Config, x: Context, v: View) {
    x.refreshMode != "" ==>
      x.connectorId in cfg.kinds && (v.credentialBacked <==> cfg.kinds[x.connectorId] != "email")
  }

  // The step issues the code to a handler that has an accepted user in hand, for what its flow
  // says, for five minutes.
  predicate Issues(cfg: Config, m: Machine, s: FlowStep, code: string, c: AuthCode) {
    && s.Complete? && s.code == code && s.w in m.hands && m.hands[s.w].Completing?
    && var h := m.hands[s.w];
    && MayHaveCode(h.x, s.v) && Backed(cfg, h.x, s.v)
    && c.clientId == h.x.clientId && c.redirectUri == h.x.redirectUri && c.codeChallenge == h.x.codeChallenge
    && c.email == h.address && c.subject == h.subject && c.connectorId == h.x.connectorId
    && c.createdAt == s.now && c.expiresAt == s.now + 5 * 60_000_000_000
  }

  lemma CodesAreEarned(cfg: Config, m: Machine, s: FlowStep, code: string)
    requires Tagged(m) && Enabled(m, s) && code !in m.issued
    ensures code in Next(cfg, m, s).issued ==> Issues(cfg, m, s, code, Next(cfg, m, s).issued[code])
  {
    if s.Complete? {
      hide DoPush, DoBegin, DoBeginPushed, DoPark, DoPeek, DoOffer, DoPick, DoTake, DoDecide, DoAccept, DoChallenge;
      hide DoResend, DoVerify, DoProve, DoRedeem, DoCrash, DoSweep, Tagged;
    } else {
      OthersIssueNothing(cfg, m, s);
      hide Next, Enabled, Tagged;
    }
  }

  lemma TakeIssuesNothing(cfg: Config, m: Machine, w: nat, token: string, page: Page, now: int, checked: int)
    requires Tagged(m)
    ensures DoTake(cfg, m, w, token, page, now, checked).issued == m.issued
  {
    if token in m.db.flow.states {
      assert Present(m, StateRow(token));
    }
    hide Serve, Noted, Tagged, Present;
  }

  predicate Opens(s: FlowStep) {
    s.Push? || s.Begin? || s.BeginPushed? || s.Park? || s.Peek? || s.Offer? || s.Pick?
  }

  lemma OpeningIssuesNothing(cfg: Config, m: Machine, s: FlowStep)
    requires Tagged(m) && Enabled(m, s) && Opens(s)
    ensures Next(cfg, m, s).issued == m.issued
  {
    hide DoTake, DoDecide, DoAccept, DoChallenge, DoResend, DoVerify, DoProve, DoComplete, DoRedeem, DoCrash, DoSweep;
    hide Present, Tagged, PushedOrigin, Opening, Stored;
  }

  lemma OthersIssueNothing(cfg: Config, m: Machine, s: FlowStep)
    requires Tagged(m) && Enabled(m, s) && !s.Complete?
    ensures Next(cfg, m, s).issued == m.issued
  {
    if Opens(s) {
      OpeningIssuesNothing(cfg, m, s);
      hide Next;
    } else {
      if s.Take? {
        TakeIssuesNothing(cfg, m, s.w, s.token, s.page, s.now, s.checked);
      }
      hide DoPush, DoBegin, DoBeginPushed, DoPark, DoPeek, DoOffer, DoPick, DoTake, DoComplete;
      hide Judge, CleanUp, CreateOtp, ConsumeOtp, ResendOtp, ConsumeAuthCode, Present, Tagged;
    }
  }

  // Over every run, each code was issued by one step that was entitled to issue it just so, whatever
  // other workers did before and after.
  lemma {:induction false} EveryCodeWasEarned(
    cfg: Config, trace: seq<Machine>, steps: seq<FlowStep>, i: nat, code: string) returns (k: nat)
    requires Run(cfg, trace, steps) && i < |trace| && code in trace[i].issued
    ensures k < i && k < |steps| && code !in trace[k].issued
      && Issues(cfg, trace[k], steps[k], code, trace[i].issued[code])
  {
    hide Inv, Next, Tagged, Enabled, Issues, Lineage;
    if code in trace[i - 1].issued {
      k := EveryCodeWasEarned(cfg, trace, steps, i - 1, code);
      Descent(cfg, trace, steps, i - 1, i);
      SameCode(trace[i - 1], trace[i], code);
    } else {
      k := i - 1;
      CodesAreEarned(cfg, trace[k], steps[k], code);
    }
  }

  lemma SameCode(m: Machine, n: Machine, code: string)
    requires Lineage(m, n) && code in m.issued
    ensures code in n.issued && n.issued[code] == m.issued[code]
  {
  }

  // ---- Pages -------------------------------------------------------------------------------------------

  // What a page asks of the flow it takes, and of the handler.
  predicate Asks(cfg: Config, page: Page, x: Context, visit: Option<Visit>) {
    match page
    case ConsentPage(accept) => accept && x.refreshMode == "offline"
    case SelectPage(id) => x.connectorId == "" && id in cfg.kinds && cfg.kinds[id] != "email"
    case ContinuePage => cfg.sole != None
    case EmailPage(id, address, passed) =>
      passed && x.connectorId == "" && id in cfg.kinds && cfg.kinds[id] == "email" && address in cfg.normal
    case CallbackPage(_, _) => visit.Some? && visit.value.CallingBack?
    case IdentityPage => visit.Some? && visit.value.Picking? && visit.value.connectorId == x.connectorId
  }

  // A page goes on with a state exactly if it has not expired at either look at the clock and is one
  // the page may go on with; the row is gone as soon as it was there unexpired at the first look.
  lemma PagesAreServed(cfg: Config, m: Machine, w: nat, token: string, page: Page, now: int, checked: int)
    requires Tagged(m) && w !in m.hands
    ensures var n := DoTake(cfg, m, w, token, page, now, checked);
      var there := token in m.db.flow.states && now <= m.db.flow.states[token].expiresAt;
      && (there ==> token !in n.db.flow.states) && (!there ==> n == m)
      && (w in n.hands <==>
            && there && checked <= m.db.flow.states[token].expiresAt
            && Asks(
                 cfg, page, Decoded(token, m.db.flow.states[token]),
                 if w in m.visits then Some(m.visits[w]) else None))
  {
    if token in m.db.flow.states {
      assert Present(m, StateRow(token));
    }
    hide Tagged, Noted, Present;
  }

  // A pushed request is taken on exactly by its client, until it expires, if the client may still ask
  // for what it says.
  lemma PushedAreServed(m: Machine, w: nat, uri: string, clientId: string, now: int, v: View)
    requires Tagged(m) && w !in m.hands
    ensures var n := DoBeginPushed(m, w, uri, clientId, now, v);
      w in n.hands <==>
        && uri in m.db.flow.pushed
        && var p := m.db.flow.pushed[uri];
        && p.clientId == clientId && now < p.expiresAt && v.redirectAllowed && v.acceptsBinding
        && (OfflineScope(p.scopes) ==> v.refreshEnabled && v.allowOffline)
        && (p.prompt == "" || p.prompt == "login" || p.prompt == "create")
  {
    if uri in m.db.flow.pushed {
      assert Present(m, PushedRow(uri));
    }
    hide Tagged, Present, Opening, OfflineScope;
  }

  // ---- Proved addresses -----------------------------------------------------------------------------

  lemma TakeAcceptsNothing(cfg: Config, m: Machine, w: nat, token: string, page: Page, now: int, checked: int)
    requires Tagged(m)
    ensures DoTake(cfg, m, w, token, page, now, checked).db.flow.accepted == m.db.flow.accepted
  {
    if token in m.db.flow.states {
      assert Present(m, StateRow(token));
    }
    hide Serve, Noted, Tagged, Present;
  }

  lemma PushedAcceptsNothing(m: Machine, w: nat, uri: string, clientId: string, now: int, v: View)
    requires Tagged(m)
    ensures DoBeginPushed(m, w, uri, clientId, now, v).db.flow.accepted == m.db.flow.accepted
  {
    hide Tagged, Present, PushedOrigin, Opening;
  }

  lemma OpeningAcceptsNothing(cfg: Config, m: Machine, s: FlowStep)
    requires Tagged(m) && Enabled(m, s) && Opens(s)
    ensures Next(cfg, m, s).db.flow.accepted == m.db.flow.accepted
  {
    if s.BeginPushed? {
      PushedAcceptsNothing(m, s.w, s.uri, s.clientId, s.now, s.view);
    }
    hide DoTake, DoDecide, DoAccept, DoChallenge, DoResend, DoVerify, DoProve, DoComplete, DoRedeem, DoCrash, DoSweep;
    hide DoBeginPushed, Present, Tagged, Opening, Stored, Asserted;
  }

  lemma RedeemAcceptsNothing(
    m: Machine, code: string, expected: AuthCode, binding: AuthCodeBinding, grant: Option<NewGrant>,
    material: RefreshMaterial, now: int)
    ensures DoRedeem(m, code, expected, binding, grant, material, now).db.flow.accepted == m.db.flow.accepted
  {
    hide CreateGrant;
  }

  // No step forgets that an address was proved.
  lemma ProofsStay(cfg: Config, m: Machine, s: FlowStep, id: Identity)
    requires Tagged(m) && Enabled(m, s) && LocallyVerified(m.db.flow, id)
    ensures LocallyVerified(Next(cfg, m, s).db.flow, id)
  {
    if Opens(s) {
      OpeningAcceptsNothing(cfg, m, s);
      hide Next;
    } else {
      if s.Take? {
        TakeAcceptsNothing(cfg, m, s.w, s.token, s.page, s.now, s.checked);
      } else if s.Redeem? {
        RedeemAcceptsNothing(m, s.code, s.expected, s.binding, s.grant, s.m, s.now);
      }
      hide DoPush, DoBegin, DoBeginPushed, DoPark, DoPeek, DoOffer, DoPick, DoTake, DoRedeem, MayIssue, CodeFor;
      hide Judge, CreateOtp, ConsumeOtp, ResendOtp, Present, Tagged, RefreshFamilies.DeleteExpired;
    }
  }

  lemma ProofIsKept(cfg: Config, m: Machine, s: FlowStep)
    requires Tagged(m) && Enabled(m, s) && s.Prove?
    ensures var h := m.hands[s.w];
      LocallyVerified(Next(cfg, m, s).db.flow, Identity(h.connectorId, h.subject, h.address))
  {
    hide Tagged;
  }

  // Once an address was proved by a code, it counts as verified from then on.
  lemma {:induction false} ProvedForEver(cfg: Config, trace: seq<Machine>, steps: seq<FlowStep>, i: nat, j: nat)
    requires Run(cfg, trace, steps) && i < j < |trace| && steps[i].Prove?
    ensures steps[i].w in trace[i].hands && trace[i].hands[steps[i].w].Proving?
    ensures var h := trace[i].hands[steps[i].w];
      LocallyVerified(trace[j].db.flow, Identity(h.connectorId, h.subject, h.address))
  {
    hide Next, Tagged, LocallyVerified;
    if j == i + 1 {
      ProofIsKept(cfg, trace[i], steps[i]);
    } else {
      ProvedForEver(cfg, trace, steps, i, j - 1);
      var h := trace[i].hands[steps[i].w];
      ProofsStay(cfg, trace[j - 1], steps[j - 1], Identity(h.connectorId, h.subject, h.address));
    }
  }
}
