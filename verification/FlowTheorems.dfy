// What every run of the authorization flow keeps.
module FlowTheorems {
  import opened Common
  import opened RefreshFamilies
  import opened FlowTables
  import opened OtpTables
  import opened Database
  import opened AuthorizationFlow

  // ---- How a step touches the holders -------------------------------------------------------

  // The log only grows, except that a waiting request may start to run.
  ghost predicate Grows(a: Log, b: Log) {
    && a.consented <= b.consented && a.used <= b.used && a.asserted <= b.asserted && a.proved <= b.proved
      && a.next <= b.next
    && (forall id :: id in a.requests ==>
      id in b.requests && (b.requests[id] == a.requests[id] || a.requests[id].Waiting?))
  }

  // Requests other than id are as they were.
  ghost predicate Beside(a: Log, b: Log, id: nat) {
    forall k :: k in a.requests && k != id ==> k in b.requests && b.requests[k] == a.requests[k]
  }

  ghost predicate OthersSame(m: Machine, n: Machine, h: Holder, k: Holder) {
    forall o :: o != h && o != k ==> ContentOf(n, o) == ContentOf(m, o)
  }

  // The request of one holder passes to another, possibly the same one.
  ghost predicate Passes(m: Machine, n: Machine, from: Holder, to: Holder) {
    && from in m.tags && (to == from || to !in m.tags)
    && OthersSame(m, n, from, to) && (from != to ==> ContentOf(n, from) == Absent) && ContentOf(n, to) != Absent
    && n.tags == Moved(m, from, to)
    && Grows(m.log, n.log) && Beside(m.log, n.log, m.tags[from]) && n.log.next == m.log.next
  }

  predicate IssuedKept(m: Machine, n: Machine) {
    forall c :: c in m.issued ==> c in n.issued && n.issued[c] == m.issued[c]
  }

  // Requests come from requests, except for new ones, and an issued code keeps its request.
  ghost predicate Lineage(m: Machine, n: Machine) {
    && m.log.next <= n.log.next && IssuedKept(m, n)
    && (forall h :: h in n.tags ==> n.tags[h] >= m.log.next || n.tags[h] in m.tags.Values)
    && (forall c :: Issued(c) in m.tags ==> Issued(c) in n.tags && n.tags[Issued(c)] == m.tags[Issued(c)])
    && (forall id :: id in m.log.requests && m.log.requests[id].Running? ==>
          id in n.log.requests && n.log.requests[id] == m.log.requests[id])
  }

  ghost predicate Successor(cfg: Config, m: Machine, n: Machine) {
    Holders(cfg, n) && Lineage(m, n)
  }

  lemma EvidenceGrows(cfg: Config, a: Log, b: Log, i: Identity, verified: bool)
    requires Grows(a, b) && Evidence(cfg, a, i, verified)
    ensures Evidence(cfg, b, i, verified)
  {
  }

  lemma ContentGrows(cfg: Config, a: Log, b: Log, c: Content, id: nat)
    requires Grows(a, b) && (id in a.requests ==> id in b.requests && b.requests[id] == a.requests[id])
    requires ContentFits(cfg, a, c, id)
    ensures ContentFits(cfg, b, c, id)
  {
    hide Evidence;
    match c
    case HandAt(h) =>
      if h.Accepting? {
        EvidenceGrows(cfg, a, b, Identity(h.connectorId, h.subject, h.address), h.verified);
      } else if h.Completing? {
        EvidenceGrows(cfg, a, b, Identity(h.x.connectorId, h.subject, h.address), h.verified);
      }
    case CodeAt(code) =>
      EvidenceGrows(cfg, a, b, Identity(code.connectorId, code.subject, code.email), code.emailVerified);
    case _ =>
  }

  lemma PassKeeps(cfg: Config, m: Machine, n: Machine, from: Holder, to: Holder)
    requires Holders(cfg, m) && Passes(m, n, from, to) && !from.Issued? && IssuedKept(m, n)
    requires ContentFits(cfg, n.log, ContentOf(n, to), m.tags[from])
    ensures Successor(cfg, m, n)
  {
    hide ContentOf, ContentFits, IssuedKept, Lineage, Tagged, Single, ContentsFit;
    PassLineage(m, n, from, to);
    PassTags(m, n, from, to);
    PassContents(cfg, m, n, from, to);
  }

  lemma PassLineage(m: Machine, n: Machine, from: Holder, to: Holder)
    requires Passes(m, n, from, to) && !from.Issued? && IssuedKept(m, n)
    ensures Lineage(m, n)
  {
    hide ContentOf, IssuedKept, OthersSame;
    assert m.tags[from] in m.tags.Values;
  }

  lemma PassTags(m: Machine, n: Machine, from: Holder, to: Holder)
    requires Passes(m, n, from, to) && Tagged(m) && Single(m)
    ensures Tagged(n) && Single(n)
  {
    hide ContentOf, Grows, Beside;
    forall h ensures h in n.tags <==> Present(n, h) {
      assert h in m.tags <==> Present(m, h);
    }
  }

  lemma PassContents(cfg: Config, m: Machine, n: Machine, from: Holder, to: Holder)
    requires Passes(m, n, from, to) && Tagged(m) && Single(m) && ContentsFit(cfg, m)
    requires ContentFits(cfg, n.log, ContentOf(n, to), m.tags[from])
    ensures ContentsFit(cfg, n)
  {
    hide ContentOf, ContentFits, Tagged;
    forall h | h in n.tags ensures ContentFits(cfg, n.log, ContentOf(n, h), n.tags[h]) {
      if h != to {
        ContentGrows(cfg, m.log, n.log, ContentOf(m, h), m.tags[h]);
      }
    }
  }

  // ---- The steps, one by one -------------------------------------------------------------------

  ghost predicate Holders(cfg: Config, m: Machine) {
    Tagged(m) && Single(m) && ContentsFit(cfg, m)
  }

  lemma NothingKeeps(cfg: Config, m: Machine, n: Machine)
    requires Holders(cfg, m) && n.tags == m.tags && Grows(m.log, n.log) && n.log.requests == m.log.requests
      && m.issued == n.issued
    requires forall h :: ContentOf(n, h) == ContentOf(m, h)
    ensures Successor(cfg, m, n)
  {
    hide ContentOf, ContentFits;
    forall h | h in n.tags ensures ContentFits(cfg, n.log, ContentOf(n, h), n.tags[h]) {
      ContentGrows(cfg, m.log, n.log, ContentOf(m, h), m.tags[h]);
    }
    assert forall h :: Present(n, h) == Present(m, h);
  }

  lemma IssuedContent(m: Machine, n: Machine, c: string)
    requires n.issued == m.issued
    ensures ContentOf(n, Issued(c)) == ContentOf(m, Issued(c))
  {
  }

  // Some holders are gone, the others as they were.
  lemma ShrinkKeeps(cfg: Config, m: Machine, n: Machine)
    requires Holders(cfg, m) && n.log == m.log && n.issued == m.issued
    requires forall h :: ContentOf(n, h) == ContentOf(m, h) || ContentOf(n, h) == Absent
    requires forall h :: h in n.tags <==> h in m.tags && ContentOf(n, h) != Absent
    requires forall h :: h in n.tags ==> n.tags[h] == m.tags[h]
    ensures Successor(cfg, m, n)
  {
    hide ContentOf, ContentFits;
    assert forall h :: h in m.tags <==> Present(m, h);
    assert forall h :: Present(n, h) ==> Present(m, h);
    forall c | Issued(c) in m.tags ensures Issued(c) in n.tags {
      IssuedContent(m, n, c);
    }
  }

  lemma OpenKeeps(cfg: Config, m: Machine, n: Machine, to: Holder, r: Request)
    requires Holders(cfg, m) && OriginsFit(m.log) && to !in m.tags && OthersSame(m, n, to, to)
      && ContentOf(n, to) != Absent && !to.Issued? && m.issued == n.issued
    requires n.tags == m.tags[to := m.log.next]
    requires n.log == m.log.(requests := m.log.requests[m.log.next := r], next := m.log.next + 1)
    requires ContentFits(cfg, n.log, ContentOf(n, to), m.log.next)
    ensures Successor(cfg, m, n)
  {
    hide ContentOf, ContentFits, OriginFits;
    assert Grows(m.log, n.log) && Beside(m.log, n.log, m.log.next);
    forall h ensures h in n.tags <==> Present(n, h) {
      assert h in m.tags <==> Present(m, h);
    }
    forall h | h in n.tags ensures ContentFits(cfg, n.log, ContentOf(n, h), n.tags[h]) {
      if h != to {
        ContentGrows(cfg, m.log, n.log, ContentOf(m, h), m.tags[h]);
      }
    }
  }

  lemma Known(cfg: Config, m: Machine, h: Holder)
    requires Holders(cfg, m)
    ensures h in m.tags <==> Present(m, h)
    ensures h in m.tags ==> ContentFits(cfg, m.log, ContentOf(m, h), m.tags[h])
  {
    hide ContentFits, ContentOf;
  }

  lemma InvHolders(cfg: Config, m: Machine)
    requires Inv(cfg, m)
    ensures Holders(cfg, m) && Tagged(m) && Successor(cfg, m, m)
  {
    hide Tagged, ContentsFit, Single;
  }

  lemma FreeStep(cfg: Config, m: Machine, w: nat)
    requires Holders(cfg, m)
    ensures Successor(cfg, m, Freed(m, w))
  {
    hide Tagged, Single, ContentsFit, Holders, Successor;
    LoseStep(cfg, m, Freed(m, w), Worker(w));
  }

  lemma ParkStep(cfg: Config, m: Machine, w: nat, token: string, now: int)
    requires Inv(cfg, m) && w in m.hands && m.hands[w].Parking? && token !in m.log.used
    ensures Successor(cfg, m, DoPark(m, w, token, now))
  {
    hide Inv, Tagged, Single, ContentsFit, ContentFits, Holders, Successor;
    InvHolders(cfg, m);
    Known(cfg, m, Worker(w));
    Known(cfg, m, StateRow(token));
    if token in m.db.flow.states {
      FreeStep(cfg, m, w);
    } else {
      ParkedFits(cfg, m.log, m.hands[w], m.tags[Worker(w)], token, now);
      PassKeeps(cfg, m, DoPark(m, w, token, now), Worker(w), StateRow(token));
    }
  }

  lemma ParkedFits(cfg: Config, log: Log, h: Hand, id: nat, token: string, now: int)
    requires ContentFits(cfg, log, HandAt(h), id)
    ensures ContentFits(cfg, log.(used := log.used + {token}), FlowAt(token, Stored(h.x, now)), id)
  {
  }

  // A page hands on the flow it took, with evidence for whatever it says about the user.
  lemma ServedFits(cfg: Config, log: Log, page: Page, token: string, s: OAuthState, visit: Option<Visit>, id: nat)
    requires ContentFits(cfg, log, FlowAt(token, s), id)
    requires visit.Some? && visit.value.CallingBack? && page.CallbackPage? ==> s.connectorId == visit.value.connectorId
    requires (visit.Some? && visit.value.Picking? && visit.value.email.verified) ==>
      Identity(visit.value.connectorId, visit.value.subject, visit.value.email.address) in log.asserted
    ensures var h := Serve(cfg, page, Decoded(token, s), visit);
      (h.Some? ==>
         && ContentFits(cfg, Noted(log, page, h.value, id), HandAt(h.value), id)
         && Grows(log, Noted(log, page, h.value, id)) && Noted(log, page, h.value, id).next == log.next
         && Noted(log, page, h.value, id).requests == log.requests)
  {
    if page.CallbackPage? && visit.Some? && visit.value.CallingBack? && page.email.verified {
      assert [page.email][0] == page.email;
      assert Identity(visit.value.connectorId, page.subject, page.email.address) in Asserted(visit.value.connectorId,
        page.subject, [page.email]);
    }
  }

  lemma VisitKnown(cfg: Config, m: Machine, w: nat)
    requires Inv(cfg, m) && w in m.visits
    ensures VisitFits(m, m.visits[w])
  {
    hide Tagged, Single, ContentsFit, VisitFits;
  }

  lemma TakeStep(cfg: Config, m: Machine, w: nat, token: string, page: Page, now: int, checked: int)
    requires Inv(cfg, m) && Enabled(m, Take(w, token, page, now, checked)) && Tagged(m)
    ensures Successor(cfg, m, DoTake(cfg, m, w, token, page, now, checked))
  {
    hide Inv, Tagged, Single, ContentsFit, ContentFits, Holders, Successor;
    hide Serve, Noted, Grows;
    InvHolders(cfg, m);
    Known(cfg, m, StateRow(token));
    Known(cfg, m, Worker(w));
    var n := DoTake(cfg, m, w, token, page, now, checked);
    if token in m.db.flow.states && m.db.flow.states[token].expiresAt >= now {
      var s, id, visit := m.db.flow.states[token], m.tags[StateRow(token)], if w in m.visits then
        Some(m.visits[w]) else None;
      if w in m.visits {
        VisitKnown(cfg, m, w);
      }
      ServedFits(cfg, m.log, page, token, s, visit, id);
      if s.expiresAt < checked || Serve(cfg, page, Decoded(token, s), visit).None? {
        LoseStep(cfg, m, n, StateRow(token));
      } else {
        TakePasses(m, n, cfg, w, token, page, now, checked, Serve(cfg, page, Decoded(token, s), visit).value);
        hide Passes;
        PassKeeps(cfg, m, n, StateRow(token), Worker(w));
      }
    }
  }

  lemma TakePasses(
    m: Machine, n: Machine, cfg: Config, w: nat, token: string, page: Page, now: int, checked: int, h: Hand)
    requires Tagged(m) && StateRow(token) in m.tags && Worker(w) !in m.tags && w !in m.hands
    requires token in m.db.flow.states && n == DoTake(cfg, m, w, token, page, now, checked)
    requires var s, visit := m.db.flow.states[token], if w in m.visits then Some(m.visits[w]) else None;
      now <= s.expiresAt && checked <= s.expiresAt && Serve(cfg, page, Decoded(token, s), visit) == Some(h)
    requires var log := Noted(m.log, page, h, m.tags[StateRow(token)]);
      Grows(m.log, log) && log.next == m.log.next && log.requests == m.log.requests
    ensures Passes(m, n, StateRow(token), Worker(w))
  {
    hide Tagged, Serve, Noted, Grows;
  }

  // A holder is gone and its request with it.
  lemma LoseStep(cfg: Config, m: Machine, n: Machine, h: Holder)
    requires Holders(cfg, m) && n.log == m.log && n.issued == m.issued && n.tags == m.tags - {h}
      && OthersSame(m, n, h, h) && ContentOf(n, h) == Absent
    ensures Successor(cfg, m, n)
  {
    hide Single, ContentsFit, ContentOf;
    forall k ensures k in n.tags <==> k in m.tags && ContentOf(n, k) != Absent {
      assert k in m.tags <==> Present(m, k);
    }
    ShrinkKeeps(cfg, m, n);
  }

  lemma PushStep(cfg: Config, m: Machine, uri: string, p: PushedRequest)
    requires Inv(cfg, m)
    ensures Successor(cfg, m, DoPush(m, uri, p))
  {
    hide Inv, Tagged, Single, ContentsFit, ContentFits, Holders, Successor;
    hide OriginsFit;
    InvOrigins(cfg, m);
    InvHolders(cfg, m);
    Known(cfg, m, PushedRow(uri));
    if uri !in m.db.flow.pushed {
      WaitingFits(cfg, m.log, p);
      PushShape(m, uri, p);
      hide DoPush, ContentOf, OthersSame;
      OpenKeeps(cfg, m, DoPush(m, uri, p), PushedRow(uri), Waiting(p));
    }
  }

  lemma PushShape(m: Machine, uri: string, p: PushedRequest)
    requires uri !in m.db.flow.pushed
    ensures var n, to := DoPush(m, uri, p), PushedRow(uri);
      && OthersSame(m, n, to, to) && ContentOf(n, to) == RequestAt(p) && n.issued == m.issued
        && n.tags == m.tags[to := m.log.next]
      && n.log == m.log.(requests := m.log.requests[m.log.next := Waiting(p)], next := m.log.next + 1)
  {
  }

  lemma WaitingFits(cfg: Config, log: Log, p: PushedRequest)
    ensures ContentFits(cfg, log.(requests := log.requests[log.next := Waiting(p)], next := log.next + 1), RequestAt(p),
      log.next)
  {
  }

  lemma InvOrigins(cfg: Config, m: Machine)
    requires Inv(cfg, m)
    ensures OriginsFit(m.log)
  {
    hide Tagged, Single, ContentsFit, OriginsFit;
  }

  lemma BeginStep(cfg: Config, m: Machine, w: nat, o: Origin)
    requires Inv(cfg, m) && w !in m.hands
    ensures Successor(cfg, m, DoBegin(cfg, m, w, o))
  {
    hide Inv, Tagged, Single, ContentsFit, ContentFits, Holders, Successor;
    hide OriginsFit;
    InvOrigins(cfg, m);
    InvHolders(cfg, m);
    Known(cfg, m, Worker(w));
    var n := DoBegin(cfg, m, w, o);
    OpeningFits(cfg, m.log, o, n.hands[w], m.log.next);
    OpenKeeps(cfg, m, n, Worker(w), Running(o, None));
  }

  lemma OpeningFits(cfg: Config, log: Log, o: Origin, h: Hand, id: nat)
    requires h.Parking? && exists c :: h.x == Opening(o, false).(connectorId := c)
    ensures ContentFits(cfg, log.(requests := log.requests[id := Running(o, None)], next := id + 1), HandAt(h), id)
  {
  }

  lemma BeginPushedStep(cfg: Config, m: Machine, w: nat, uri: string, clientId: string, now: int, v: View)
    requires Inv(cfg, m) && w !in m.hands && Tagged(m)
    ensures Successor(cfg, m, DoBeginPushed(m, w, uri, clientId, now, v))
  {
    hide Inv, Tagged, Single, ContentsFit, ContentFits, Holders, Successor;
    hide PushedOrigin;
    InvHolders(cfg, m);
    Known(cfg, m, PushedRow(uri));
    Known(cfg, m, Worker(w));
    var n := DoBeginPushed(m, w, uri, clientId, now, v);
    if uri in m.db.flow.pushed && m.db.flow.pushed[uri].clientId == clientId && now < m.db.flow.pushed[uri].expiresAt {
      if w in n.hands {
        var p := m.db.flow.pushed[uri];
        PushedFits(cfg, m.log, p, m.tags[PushedRow(uri)], PushedOrigin(p, v, now).value);
        PassKeeps(cfg, m, n, PushedRow(uri), Worker(w));
      } else {
        LoseStep(cfg, m, n, PushedRow(uri));
      }
    }
  }

  lemma PushedFits(cfg: Config, log: Log, p: PushedRequest, id: nat, o: Origin)
    requires ContentFits(cfg, log, RequestAt(p), id)
    ensures id in log.requests && log.requests[id].Waiting?
    ensures ContentFits(cfg, log.(requests := log.requests[id := Running(o, Some(p))]),
      HandAt(Parking(Opening(o, true))), id)
  {
  }

  // Offering a choice of addresses only moves the row's expiry.
  lemma OfferStep(cfg: Config, m: Machine, w: nat, hash: Digest, subject: string, emails: seq<Email>, now: int)
    requires Inv(cfg, m) && w in m.visits && m.visits[w].CallingBack?
    ensures Successor(cfg, m, DoOffer(m, w, hash, subject, emails, now))
  {
    hide Inv, Tagged, Single, ContentsFit, ContentFits, Holders, Successor;
    InvHolders(cfg, m);
    var n, token := DoOffer(m, w, hash, subject, emails, now), m.visits[w].token;
    Known(cfg, m, StateRow(token));
    if token in m.db.flow.states {
      OfferedFits(cfg, m.log, n.log, token, m.db.flow.states[token], m.tags[StateRow(token)], now + SELECTION_TTL);
      PassKeeps(cfg, m, n, StateRow(token), StateRow(token));
    } else {
      NothingKeeps(cfg, m, n);
    }
  }

  lemma OfferedFits(cfg: Config, log: Log, log2: Log, token: string, s: OAuthState, id: nat, expiry: int)
    requires ContentFits(cfg, log, FlowAt(token, s), id) && log2 == log.(asserted := log2.asserted)
      && log.asserted <= log2.asserted
    ensures ContentFits(cfg, log2, FlowAt(token, s), id)
      && ContentFits(cfg, log2, FlowAt(token, s.(expiresAt := expiry)), id)
  {
  }

  // The hand of a worker changes, backed by what is on record.
  lemma HandStep(cfg: Config, m: Machine, n: Machine, w: nat)
    requires Holders(cfg, m) && w in m.hands && w in n.hands && n.hands == m.hands[w := n.hands[w]]
    requires n.tags == m.tags && n.log == m.log && n.issued == m.issued && n.db.otp == m.db.otp
    requires n.db.flow.states == m.db.flow.states && n.db.flow.pushed == m.db.flow.pushed
    requires Worker(w) in m.tags ==> HandFits(cfg, m.log, n.hands[w], m.tags[Worker(w)])
    ensures Successor(cfg, m, n)
  {
    hide HandFits, Holders, Successor, Tagged, Single, ContentsFit;
    Known(cfg, m, Worker(w));
    PassKeeps(cfg, m, n, Worker(w), Worker(w));
  }

  lemma DecideStep(cfg: Config, m: Machine, w: nat)
    requires Inv(cfg, m) && w in m.hands && m.hands[w].Asserting?
    ensures Successor(cfg, m, DoDecide(cfg, m, w))
  {
    hide Inv, Tagged, Single, ContentsFit, Holders, Successor, HandFits, Judge;
    InvIdentities(cfg, m);
    InvHolders(cfg, m);
    Known(cfg, m, Worker(w));
    var h := m.hands[w];
    if Judge(cfg, m.db.flow, h).None? {
      FreeStep(cfg, m, w);
    } else {
      JudgedFits(cfg, m.log, m.db.flow, h, m.tags[Worker(w)]);
      HandStep(cfg, m, DoDecide(cfg, m, w), w);
    }
  }

  lemma InvIdentities(cfg: Config, m: Machine)
    requires Inv(cfg, m)
    ensures forall i :: LocallyVerified(m.db.flow, i) ==> i in m.log.proved
  {
    hide Tagged, Single, ContentsFit, LocallyVerified;
  }

  lemma JudgedFits(cfg: Config, log: Log, flow: Flow, h: Hand, id: nat)
    requires h.Asserting? && HandFits(cfg, log, h, id) && forall i :: LocallyVerified(flow, i) ==> i in log.proved
    ensures Judge(cfg, flow, h).Some? ==> HandFits(cfg, log, Judge(cfg, flow, h).value, id)
  {
    if h.email.address in cfg.normal {
      var i := Identity(h.connectorId, h.subject, cfg.normal[h.email.address]);
      assert h.email.verified ==> Vouched(cfg, log, i);
      assert LocallyVerified(flow, i) ==> i in log.proved;
    }
  }

  lemma AcceptStep(cfg: Config, m: Machine, w: nat)
    requires Inv(cfg, m) && w in m.hands && m.hands[w].Accepting?
    ensures Successor(cfg, m, DoAccept(m, w))
  {
    hide Inv, Tagged, Single, ContentsFit, Holders, Successor;
    InvHolders(cfg, m);
    Known(cfg, m, Worker(w));
    HandStep(cfg, m, DoAccept(m, w), w);
  }

  lemma ProveStep(cfg: Config, m: Machine, w: nat)
    requires Inv(cfg, m) && w in m.hands && m.hands[w].Proving?
    ensures Successor(cfg, m, DoProve(m, w))
  {
    hide Inv, Tagged, Single, ContentsFit, Holders, Successor;
    InvHolders(cfg, m);
    Known(cfg, m, Worker(w));
    HandStep(cfg, m, DoProve(m, w), w);
  }

  lemma ChallengeStep(cfg: Config, m: Machine, w: nat, id: string, mac: Mac, now: int, ttl: int)
    requires Inv(cfg, m) && w in m.hands && m.hands[w].Challenging? && Tagged(m)
    ensures Successor(cfg, m, DoChallenge(m, w, id, mac, now, ttl))
  {
    hide Inv, Tagged, Single, ContentsFit, ContentFits, Holders, Successor;
    hide Recent;
    InvHolders(cfg, m);
    Known(cfg, m, Worker(w));
    Known(cfg, m, ChallengeRow(id));
    var h := m.hands[w];
    if CreateOtp(m.db.otp, id, h.address, mac, Challenged(h.x, h.connectorId, h.subject, h.address), now, ttl).1.Err? {
      FreeStep(cfg, m, w);
    } else {
      ChallengedFits(cfg, m.log, h, m.tags[Worker(w)], mac, now, now + ttl);
      PassKeeps(cfg, m, DoChallenge(m, w, id, mac, now, ttl), Worker(w), ChallengeRow(id));
    }
  }

  lemma ChallengedFits(cfg: Config, log: Log, h: Hand, id: nat, mac: Mac, now: int, expiry: int)
    requires ContentFits(cfg, log, HandAt(h), id) && h.Challenging?
    ensures var c := OtpTables.Challenge.Challenge(h.address, mac, Challenged(h.x, h.connectorId, h.subject, h.address),
      0, 1, now, now, expiry);
      ContentFits(cfg, log, ChallengeAt(c), id)
  {
  }

  // A resend changes the code, not the flow it belongs to.
  lemma ResendStep(cfg: Config, m: Machine, id: string, mac: Mac, now: int, ttl: int)
    requires Inv(cfg, m)
    ensures Successor(cfg, m, DoResend(m, id, mac, now, ttl))
  {
    hide Inv, Tagged, Single, ContentsFit, ContentFits, Holders, Successor;
    hide ResendRefusal;
    InvHolders(cfg, m);
    Known(cfg, m, ChallengeRow(id));
    var n := DoResend(m, id, mac, now, ttl);
    ResendOnlyThere(m.db.otp, id, mac, now, ttl);
    if id in m.db.otp.challenges {
      ResentFits(cfg, m.log, m.db.otp.challenges[id], n.db.otp.challenges[id], m.tags[ChallengeRow(id)]);
      PassKeeps(cfg, m, n, ChallengeRow(id), ChallengeRow(id));
    }
  }

  lemma ResendOnlyThere(o: Otp, id: string, mac: Mac, now: int, ttl: int)
    ensures id !in o.challenges ==> ResendOtp(o, id, mac, now, ttl).0 == o
  {
  }

  lemma ResentFits(cfg: Config, log: Log, c: OtpTables.Challenge, d: OtpTables.Challenge, id: nat)
    requires ContentFits(cfg, log, ChallengeAt(c), id) && d.flow == c.flow && d.email == c.email
    ensures ContentFits(cfg, log, ChallengeAt(d), id)
  {
  }

  lemma VerifyStep(cfg: Config, m: Machine, w: nat, id: string, guess: Mac, now: int)
    requires Inv(cfg, m) && w !in m.hands && Tagged(m)
    ensures Successor(cfg, m, DoVerify(m, w, id, guess, now))
  {
    hide Inv, Tagged, Single, ContentsFit, ContentFits, Holders, Successor;
    InvHolders(cfg, m);
    Known(cfg, m, ChallengeRow(id));
    Known(cfg, m, Worker(w));
    var n := DoVerify(m, w, id, guess, now);
    if id in m.db.otp.challenges {
      var c, tag := m.db.otp.challenges[id], m.tags[ChallengeRow(id)];
      VerifyPasses(m, w, id, guess, now);
      hide Passes;
      if ConsumeOtp(m.db.otp, id, guess, now).1.Ok? {
        VerifiedFits(cfg, m.log, c, tag);
        PassKeeps(cfg, m, n, ChallengeRow(id), Worker(w));
      } else {
        ResentFits(cfg, m.log, c, n.db.otp.challenges[id], tag);
        PassKeeps(cfg, m, n, ChallengeRow(id), ChallengeRow(id));
      }
    }
  }

  lemma VerifyPasses(m: Machine, w: nat, id: string, guess: Mac, now: int)
    requires Tagged(m) && id in m.db.otp.challenges
    requires ChallengeRow(id) in m.tags && Worker(w) !in m.tags && w !in m.hands
    ensures var n, taken := DoVerify(m, w, id, guess, now), ConsumeOtp(m.db.otp, id, guess, now).1.Ok?;
      Passes(m, n, ChallengeRow(id), if taken then Worker(w) else ChallengeRow(id))
  {
    hide Tagged, Resumed;
  }

  lemma VerifiedFits(cfg: Config, log: Log, c: OtpTables.Challenge, id: nat)
    requires ContentFits(cfg, log, ChallengeAt(c), id)
    ensures var f := c.flow;
      var h := Proving(Resumed(f), f.connectorId, f.subject, f.email);
      ContentFits(cfg, log.(proved := log.proved + {Identity(f.connectorId, f.subject, c.email)}), HandAt(h), id)
  {
  }

  lemma CompleteStep(cfg: Config, m: Machine, w: nat, code: string, v: View, now: int)
    requires Inv(cfg, m) && w in m.hands && m.hands[w].Completing? && code !in m.issued && Tagged(m)
    ensures Successor(cfg, m, DoComplete(cfg, m, w, code, v, now))
  {
    hide Inv, Tagged, Single, ContentsFit, ContentFits, Holders, Successor;
    hide MayIssue;
    InvHolders(cfg, m);
    Known(cfg, m, Worker(w));
    Known(cfg, m, Issued(code));
    var n, h := DoComplete(cfg, m, w, code, v, now), m.hands[w];
    if !MayIssue(cfg, h.x, v) || code in m.db.flow.codes {
      FreeStep(cfg, m, w);
    } else {
      CompletedFits(cfg, m.log, h, m.tags[Worker(w)], v, now);
      PassKeeps(cfg, m, n, Worker(w), Issued(code));
    }
  }

  // complete refuses a flow without the consent it needs, and one that only manages grants.
  lemma CompletedFits(cfg: Config, log: Log, h: Hand, id: nat, v: View, now: int)
    requires ContentFits(cfg, log, HandAt(h), id) && h.Completing? && MayIssue(cfg, h.x, v)
    ensures ContentFits(cfg, log, CodeAt(CodeFor(h.x, h.subject, h.address, h.verified, now)), id)
  {
  }

  lemma SweptContent(m: Machine, sweep: Sweep, now: int, h: Holder)
    ensures var n := DoSweep(m, sweep, now);
      && (ContentOf(n, h) == ContentOf(m, h) || ContentOf(n, h) == Absent)
      && (h in n.tags <==> h in m.tags && ContentOf(n, h) != Absent) && (h in n.tags ==> n.tags[h] == m.tags[h])
  {
    hide RefreshFamilies.DeleteExpired;
  }

  lemma SweepStep(cfg: Config, m: Machine, sweep: Sweep, now: int)
    requires Inv(cfg, m)
    ensures Successor(cfg, m, DoSweep(m, sweep, now))
  {
    hide Inv, Tagged, Single, ContentsFit, ContentFits, Holders, DoSweep, ContentOf;
    InvHolders(cfg, m);
    var n := DoSweep(m, sweep, now);
    SweptLog(m, sweep, now);
    forall h
      ensures ContentOf(n, h) == ContentOf(m, h) || ContentOf(n, h) == Absent
      ensures h in n.tags <==> h in m.tags && ContentOf(n, h) != Absent
      ensures h in n.tags ==> n.tags[h] == m.tags[h]
    {
      SweptContent(m, sweep, now, h);
    }
    ShrinkKeeps(cfg, m, n);
  }

  lemma SweptLog(m: Machine, sweep: Sweep, now: int)
    ensures DoSweep(m, sweep, now).log == m.log && DoSweep(m, sweep, now).issued == m.issued
  {
    hide CleanUp;
  }

  lemma RestStep(cfg: Config, m: Machine, n: Machine)
    requires Inv(cfg, m)
    requires n.tags == m.tags && n.log == m.log && n.hands == m.hands && n.issued == m.issued
    requires n.db.otp == m.db.otp && n.db.flow.states == m.db.flow.states && n.db.flow.pushed == m.db.flow.pushed
    ensures Successor(cfg, m, n)
  {
    hide Inv, Tagged, Single, ContentsFit, ContentFits, Holders, Successor;
    InvHolders(cfg, m);
    NothingKeeps(cfg, m, n);
  }

  lemma CrashStep(cfg: Config, m: Machine, w: nat)
    requires Inv(cfg, m)
    ensures Successor(cfg, m, DoCrash(m, w))
  {
    hide Inv, Tagged, Single, ContentsFit, Holders, Successor;
    InvHolders(cfg, m);
    LoseStep(cfg, m, DoCrash(m, w), Worker(w));
  }

  // What ConsumeAuthCode can do to the tables of the flow.
  lemma Consumption(
    db: Db, code: string, expected: AuthCode, binding: AuthCodeBinding, grant: Option<NewGrant>,
    material: RefreshMaterial, now: int)
    ensures var (db2, r) := ConsumeAuthCode(db, code, expected, binding, grant, material, now);
      && (r.Err? ==> db2 == db)
      && db2.otp == db.otp && db2.flow.states == db.flow.states && db2.flow.pushed == db.flow.pushed
      && db2.flow.selections == db.flow.selections && db2.flow.accepted == db.flow.accepted
      && (!r.Err? ==> code in db.flow.codes && db2.flow.codes == db.flow.codes - {code})
  {
    hide CreateGrant;
  }

  lemma PeekStep(cfg: Config, m: Machine, w: nat, token: string, id: string, now: int)
    requires Inv(cfg, m)
    ensures Successor(cfg, m, DoPeek(m, w, token, id, now))
  {
    hide Inv, Holders, Successor;
    RestStep(cfg, m, DoPeek(m, w, token, id, now));
  }

  lemma PickStep(cfg: Config, m: Machine, w: nat, hash: Digest, index: nat, now: int)
    requires Inv(cfg, m)
    ensures Successor(cfg, m, DoPick(m, w, hash, index, now))
  {
    hide Inv, Holders, Successor;
    RestStep(cfg, m, DoPick(m, w, hash, index, now));
  }

  lemma RedeemStep(
    cfg: Config, m: Machine, code: string, expected: AuthCode, binding: AuthCodeBinding, grant: Option<NewGrant>,
    material: RefreshMaterial, now: int)
    requires Inv(cfg, m)
    ensures Successor(cfg, m, DoRedeem(m, code, expected, binding, grant, material, now))
  {
    hide Inv, Holders, Successor, ConsumeAuthCode;
    Consumption(m.db, code, expected, binding, grant, material, now);
    RestStep(cfg, m, DoRedeem(m, code, expected, binding, grant, material, now));
  }

  lemma HoldersStep(cfg: Config, m: Machine, s: FlowStep)
    requires Inv(cfg, m) && Enabled(m, s) && Tagged(m)
    ensures Successor(cfg, m, Next(cfg, m, s))
  {
    hide Inv, Holders, Successor, Tagged, DoPush, DoBegin, DoBeginPushed, DoPark, DoOffer, DoTake, DoDecide, DoAccept,
      DoChallenge, DoResend, DoVerify, DoProve, DoComplete;
    hide DoCrash, DoSweep, DoPeek, DoPick, DoRedeem;
    match s
    case Push(uri, p) => PushStep(cfg, m, uri, p);
    case Begin(w, o) => BeginStep(cfg, m, w, o);
    case BeginPushed(w, uri, clientId, now, v) => BeginPushedStep(cfg, m, w, uri, clientId, now, v);
    case Park(w, token, now) => ParkStep(cfg, m, w, token, now);
    case Offer(w, hash, subject, emails, now) => OfferStep(cfg, m, w, hash, subject, emails, now);
    case Take(w, token, page, now, checked) => TakeStep(cfg, m, w, token, page, now, checked);
    case Decide(w) => DecideStep(cfg, m, w);
    case Accept(w) => AcceptStep(cfg, m, w);
    case Challenge(w, id, mac, now, ttl) => ChallengeStep(cfg, m, w, id, mac, now, ttl);
    case Resend(id, mac, now, ttl) => ResendStep(cfg, m, id, mac, now, ttl);
    case Verify(w, id, guess, now) => VerifyStep(cfg, m, w, id, guess, now);
    case Prove(w) => ProveStep(cfg, m, w);
    case Complete(w, code, v, now) => CompleteStep(cfg, m, w, code, v, now);
    case Crash(w) => CrashStep(cfg, m, w);
    case CleanedUp(sweep, now) => SweepStep(cfg, m, sweep, now);
    case Peek(w, token, id, now) => PeekStep(cfg, m, w, token, id, now);
    case Pick(w, hash, index, now) => PickStep(cfg, m, w, hash, index, now);
    case Redeem(code, expected, binding, grant, material, now) =>
      RedeemStep(cfg, m, code, expected, binding, grant, material, now);
    case Elsewhere(db) => RestStep(cfg, m, m.(db := db));
  }

  // ---- Visitors, codes, identities and origins --------------------------------------------------

  ghost predicate Aside(m: Machine) {
    VisitsFit(m) && CodesFit(m) && IdentitiesFit(m) && OriginsFit(m.log)
  }

  predicate Recorded(a: Log, b: Log) {
    a.used <= b.used && a.asserted <= b.asserted && a.proved <= b.proved
  }

  // Nothing these rest on changes; the record may grow.
  predicate Calm(m: Machine, n: Machine) {
    && n.db.flow.states == m.db.flow.states && n.db.flow.codes == m.db.flow.codes
      && n.db.flow.selections == m.db.flow.selections
    && n.db.flow.accepted == m.db.flow.accepted && n.issued == m.issued && n.answered == m.answered
      && n.visits == m.visits
    && Recorded(m.log, n.log)
  }

  // No state row appears or changes its connector, unless it is the first to use its token.
  predicate RowsSettle(m: Machine, n: Machine) {
    forall t :: t in n.db.flow.states && t in m.log.used ==>
      t in m.db.flow.states && n.db.flow.states[t].connectorId == m.db.flow.states[t].connectorId
  }

  lemma VisitsKept(m: Machine, n: Machine)
    requires VisitsFit(m) && RowsSettle(m, n) && Recorded(m.log, n.log)
    requires forall w :: w in n.visits ==> (w in m.visits && n.visits[w] == m.visits[w]) || VisitFits(n, n.visits[w])
    ensures VisitsFit(n)
  {
    forall w | w in n.visits ensures VisitFits(n, n.visits[w]) {
      assert w in m.visits && n.visits[w] == m.visits[w] ==> VisitFits(m, m.visits[w]);
    }
  }

  lemma CodesKept(m: Machine, n: Machine)
    requires CodesFit(m) && n.db.flow.codes == m.db.flow.codes && n.issued == m.issued && n.answered == m.answered
    ensures CodesFit(n)
  {
  }

  lemma IdentitiesKept(m: Machine, n: Machine)
    requires IdentitiesFit(m) && n.db.flow.accepted == m.db.flow.accepted && Recorded(m.log, n.log)
    requires forall k :: k in n.db.flow.selections ==>
      (k in m.db.flow.selections && n.db.flow.selections[k] == m.db.flow.selections[k])
        || SelectionFits(n.log, n.db.flow.selections[k])
    ensures IdentitiesFit(n)
  {
    forall i | LocallyVerified(n.db.flow, i) ensures i in n.log.proved {
      assert LocallyVerified(m.db.flow, i);
    }
  }

  lemma CalmKeeps(m: Machine, n: Machine)
    requires Aside(m) && Calm(m, n) && OriginsFit(n.log)
    ensures Aside(n)
  {
    hide VisitFits, SelectionFits, OriginsFit, VisitsFit, CodesFit, IdentitiesFit;
    assert RowsSettle(m, n);
    VisitsKept(m, n);
    CodesKept(m, n);
    IdentitiesKept(m, n);
  }

  lemma OriginsGrow(log: Log, id: nat, r: Request, next: nat)
    requires OriginsFit(log) && OriginFits(r) && id < next && log.next <= next
    ensures OriginsFit(log.(requests := log.requests[id := r], next := next))
  {
    hide OriginFits;
  }

  lemma PushAside(m: Machine, uri: string, p: PushedRequest)
    requires Aside(m)
    ensures Aside(DoPush(m, uri, p))
  {
    OriginsGrow(m.log, m.log.next, Waiting(p), m.log.next + 1);
    hide Aside, OriginsFit;
    CalmKeeps(m, DoPush(m, uri, p));
  }

  lemma AsideOrigins(m: Machine)
    requires Aside(m)
    ensures OriginsFit(m.log)
  {
  }

  lemma BeginAside(cfg: Config, m: Machine, w: nat, o: Origin)
    requires Aside(m)
    ensures Aside(DoBegin(cfg, m, w, o))
  {
    OriginsGrow(m.log, m.log.next, Running(o, None), m.log.next + 1);
    hide Aside, OriginsFit;
    CalmKeeps(m, DoBegin(cfg, m, w, o));
  }

  lemma BeginPushedAside(cfg: Config, m: Machine, w: nat, uri: string, clientId: string, now: int, v: View)
    requires Aside(m) && Holders(cfg, m) && Tagged(m)
    ensures Aside(DoBeginPushed(m, w, uri, clientId, now, v))
  {
    AsideOrigins(m);
    hide Aside, OriginsFit, Holders, Tagged, OfflineScope;
    Known(cfg, m, PushedRow(uri));
    if PushedRow(uri) in m.tags && uri in m.db.flow.pushed {
      var p, id := m.db.flow.pushed[uri], m.tags[PushedRow(uri)];
      RequestTag(cfg, m, PushedRow(uri));
      if PushedOrigin(p, v, now).Some? {
        OriginsGrow(m.log, id, Running(PushedOrigin(p, v, now).value, Some(p)), m.log.next);
      }
    }
    BeginPushedCalm(m, w, uri, clientId, now, v);
    hide DoBeginPushed, PushedOrigin;
    CalmKeeps(m, DoBeginPushed(m, w, uri, clientId, now, v));
  }

  lemma BeginPushedCalm(m: Machine, w: nat, uri: string, clientId: string, now: int, v: View)
    requires Tagged(m)
    ensures Calm(m, DoBeginPushed(m, w, uri, clientId, now, v))
  {
    hide Tagged, PushedOrigin, Opening;
  }

  lemma RequestTag(cfg: Config, m: Machine, h: Holder)
    requires Holders(cfg, m) && h in m.tags
    ensures m.tags[h] < m.log.next
  {
    hide ContentsFit, Tagged;
  }

  lemma DecideAside(cfg: Config, m: Machine, w: nat)
    requires Aside(m) && w in m.hands && m.hands[w].Asserting?
    ensures Aside(DoDecide(cfg, m, w))
  {
    hide Aside, OriginsFit, Judge;
    AsideOrigins(m);
    CalmKeeps(m, DoDecide(cfg, m, w));
  }

  lemma ChallengeAside(m: Machine, w: nat, id: string, mac: Mac, now: int, ttl: int)
    requires Aside(m) && w in m.hands && m.hands[w].Challenging? && Tagged(m)
    ensures Aside(DoChallenge(m, w, id, mac, now, ttl))
  {
    hide Aside, OriginsFit, Tagged, CreateOtp;
    AsideOrigins(m);
    CalmKeeps(m, DoChallenge(m, w, id, mac, now, ttl));
  }

  lemma ResendAside(m: Machine, id: string, mac: Mac, now: int, ttl: int)
    requires Aside(m)
    ensures Aside(DoResend(m, id, mac, now, ttl))
  {
    hide Aside, OriginsFit, ResendOtp;
    AsideOrigins(m);
    CalmKeeps(m, DoResend(m, id, mac, now, ttl));
  }

  lemma VerifyAside(m: Machine, w: nat, id: string, guess: Mac, now: int)
    requires Aside(m) && Tagged(m)
    ensures Aside(DoVerify(m, w, id, guess, now))
  {
    hide Aside, Tagged;
    AsideOrigins(m);
    assert OriginsFit(DoVerify(m, w, id, guess, now).log);
    hide OriginsFit;
    CalmKeeps(m, DoVerify(m, w, id, guess, now));
  }

  lemma OriginsSame(m: Machine, n: Machine)
    requires Aside(m) && n.log.requests == m.log.requests && n.log.next == m.log.next
    ensures OriginsFit(n.log)
  {
  }

  lemma ParkAside(m: Machine, w: nat, token: string, now: int)
    requires Aside(m) && w in m.hands && m.hands[w].Parking? && token !in m.log.used && Tagged(m)
    ensures Aside(DoPark(m, w, token, now))
  {
    hide Tagged, VisitsFit, CodesFit, IdentitiesFit, OriginsFit;
    var n := DoPark(m, w, token, now);
    OriginsSame(m, n);
    VisitsKept(m, n);
    CodesKept(m, n);
    IdentitiesKept(m, n);
  }

  lemma PeekAside(cfg: Config, m: Machine, w: nat, token: string, id: string, now: int)
    requires Aside(m) && Holders(cfg, m)
    ensures Aside(DoPeek(m, w, token, id, now))
  {
    var n := DoPeek(m, w, token, id, now);
    if token in m.db.flow.states {
      TokenUsed(cfg, m, token);
    }
    hide Holders, VisitsFit, CodesFit, IdentitiesFit, OriginsFit;
    OriginsSame(m, n);
    VisitsKept(m, n);
    CodesKept(m, n);
    IdentitiesKept(m, n);
  }

  lemma TokenUsed(cfg: Config, m: Machine, token: string)
    requires Holders(cfg, m) && token in m.db.flow.states
    ensures token in m.log.used
  {
    Known(cfg, m, StateRow(token));
  }

  lemma OfferAside(m: Machine, w: nat, hash: Digest, subject: string, emails: seq<Email>, now: int)
    requires Aside(m) && w in m.visits && m.visits[w].CallingBack?
    ensures Aside(DoOffer(m, w, hash, subject, emails, now))
  {
    hide VisitsFit, CodesFit, IdentitiesFit, OriginsFit, SelectionFits;
    var n := DoOffer(m, w, hash, subject, emails, now);
    SelectionAsserted(n.log, m.visits[w].token, m.visits[w].connectorId, subject, emails, now + SELECTION_TTL);
    OriginsSame(m, n);
    VisitsKept(m, n);
    CodesKept(m, n);
    IdentitiesKept(m, n);
  }

  lemma SelectionAsserted(log: Log, token: string, id: string, subject: string, emails: seq<Email>, expiry: int)
    requires Asserted(id, subject, emails) <= log.asserted
    ensures SelectionFits(log, Selection(token, id, subject, emails, expiry))
  {
    forall e | e in emails && e.verified ensures Identity(id, subject, e.address) in log.asserted {
      var i :| 0 <= i < |emails| && emails[i] == e;
      assert Identity(id, subject, emails[i].address) in Asserted(id, subject, emails);
    }
  }

  lemma PickedFits(n: Machine, s: Selection, index: nat, v: Visit)
    requires SelectionFits(n.log, s)
    requires index < |s.emails| && v == Picking(s.state, s.connectorId, s.subject, s.emails[index])
    ensures VisitFits(n, v)
  {
  }

  lemma PickAside(m: Machine, w: nat, hash: Digest, index: nat, now: int)
    requires Aside(m)
    ensures Aside(DoPick(m, w, hash, index, now))
  {
    var n := DoPick(m, w, hash, index, now);
    if w in n.visits && hash in m.db.flow.selections && n.visits != m.visits {
      PickedFits(n, m.db.flow.selections[hash], index, n.visits[w]);
    }
    hide VisitsFit, CodesFit, IdentitiesFit, OriginsFit, SelectionFits, VisitFits;
    OriginsSame(m, n);
    VisitsKept(m, n);
    CodesKept(m, n);
    IdentitiesKept(m, n);
  }

  // Taking a state changes no other table, and no other state.
  lemma Taking(f: Flow, token: string, now: int, checked: int)
    ensures var f2 := GetAndDeleteState(f, token, now, checked).0;
      && f2.codes == f.codes && f2.selections == f.selections && f2.accepted == f.accepted
      && (forall t :: t in f2.states ==> t in f.states && f2.states[t] == f.states[t])
  {
  }

  lemma NotedGrows(log: Log, page: Page, h: Hand, id: nat)
    ensures var log2 := Noted(log, page, h, id);
      Recorded(log, log2) && log2.requests == log.requests && log2.next == log.next && log2.used == log.used
  {
  }

  lemma TakenAside(m: Machine, flow: Flow, w: nat, token: string, page: Page, hand: Option<Hand>)
    requires Aside(m) && StateRow(token) in m.tags
    requires flow.codes == m.db.flow.codes && flow.selections == m.db.flow.selections
      && flow.accepted == m.db.flow.accepted
    requires forall t :: t in flow.states ==> t in m.db.flow.states && flow.states[t] == m.db.flow.states[t]
    ensures Aside(TakenOver(m, flow, w, token, page, hand))
  {
    var n := TakenOver(m, flow, w, token, page, hand);
    if hand.Some? {
      NotedGrows(m.log, page, hand.value, m.tags[StateRow(token)]);
    }
    hide Noted, VisitsFit, CodesFit, IdentitiesFit, OriginsFit, SelectionFits, VisitFits;
    OriginsSame(m, n);
    VisitsKept(m, n);
    CodesKept(m, n);
    IdentitiesKept(m, n);
  }

  lemma TakeAside(cfg: Config, m: Machine, w: nat, token: string, page: Page, now: int, checked: int)
    requires Aside(m) && Tagged(m)
    ensures Aside(DoTake(cfg, m, w, token, page, now, checked))
  {
    hide Aside, TakenOver, Serve;
    var (flow, r) := GetAndDeleteState(m.db.flow, token, now, checked);
    if token in m.db.flow.states && token !in flow.states {
      assert Present(m, StateRow(token));
      Taking(m.db.flow, token, now, checked);
      hide Tagged;
      var visit := if w in m.visits then Some(m.visits[w]) else None;
      TakenAside(m, flow, w, token, page, if r.Ok? then Serve(cfg, page, Decoded(token, r.value), visit) else None);
    }
  }

  // A hand that says its address is locally verified has it on record.
  lemma SavedIdentities(m: Machine, n: Machine, id: Identity, local: bool)
    requires IdentitiesFit(m) && n.log == m.log && n.db.flow == SaveCredential(m.db.flow, id, local) && (local ==>
      id in m.log.proved)
    ensures IdentitiesFit(n)
  {
    hide SelectionFits;
    forall i | LocallyVerified(n.db.flow, i) ensures i in n.log.proved {
      assert i != id || !local ==> LocallyVerified(m.db.flow, i);
    }
  }

  lemma AcceptAside(cfg: Config, m: Machine, w: nat)
    requires Aside(m) && Holders(cfg, m) && w in m.hands && m.hands[w].Accepting?
    ensures Aside(DoAccept(m, w))
  {
    hide Holders, VisitsFit, CodesFit, IdentitiesFit, OriginsFit;
    var h, n := m.hands[w], DoAccept(m, w);
    Known(cfg, m, Worker(w));
    SavedIdentities(m, n, Identity(h.connectorId, h.subject, h.address), h.local);
    OriginsSame(m, n);
    VisitsKept(m, n);
    CodesKept(m, n);
  }

  lemma ProveAside(cfg: Config, m: Machine, w: nat)
    requires Aside(m) && Holders(cfg, m) && w in m.hands && m.hands[w].Proving?
    ensures Aside(DoProve(m, w))
  {
    hide Holders, VisitsFit, CodesFit, IdentitiesFit, OriginsFit;
    var h, n := m.hands[w], DoProve(m, w);
    Known(cfg, m, Worker(w));
    SavedIdentities(m, n, Identity(h.connectorId, h.subject, h.address), true);
    OriginsSame(m, n);
    VisitsKept(m, n);
    CodesKept(m, n);
  }

  lemma CompleteAside(cfg: Config, m: Machine, w: nat, code: string, v: View, now: int)
    requires Aside(m) && w in m.hands && m.hands[w].Completing? && code !in m.issued && Tagged(m)
    ensures Aside(DoComplete(cfg, m, w, code, v, now))
  {
    hide Tagged, MayIssue, VisitsFit, IdentitiesFit, OriginsFit, SelectionFits, VisitFits, CodesFit, CodeFor;
    var n := DoComplete(cfg, m, w, code, v, now);
    CompletedCodes(cfg, m, w, code, v, now);
    OriginsSame(m, n);
    VisitsKept(m, n);
    IdentitiesKept(m, n);
  }

  lemma CompletedCodes(cfg: Config, m: Machine, w: nat, code: string, v: View, now: int)
    requires CodesFit(m) && w in m.hands && m.hands[w].Completing? && code !in m.issued && Tagged(m)
    ensures CodesFit(DoComplete(cfg, m, w, code, v, now))
  {
    hide Tagged, MayIssue, CodeFor;
  }

  lemma AnsweredKept(m: Machine, n: Machine, code: string)
    requires CodesFit(m) && code in m.db.flow.codes && n.db.flow.codes == m.db.flow.codes - {code}
    requires n.issued == m.issued && n.answered == m.answered + [code]
    ensures CodesFit(n)
  {
  }

  lemma RedeemAside(
    m: Machine, code: string, expected: AuthCode, binding: AuthCodeBinding, grant: Option<NewGrant>,
    material: RefreshMaterial, now: int)
    requires Aside(m)
    ensures Aside(DoRedeem(m, code, expected, binding, grant, material, now))
  {
    hide ConsumeAuthCode, CodesFit, VisitsFit, IdentitiesFit, OriginsFit, SelectionFits, VisitFits;
    var n := DoRedeem(m, code, expected, binding, grant, material, now);
    Consumption(m.db, code, expected, binding, grant, material, now);
    OriginsSame(m, n);
    VisitsKept(m, n);
    IdentitiesKept(m, n);
    if n != m {
      AnsweredKept(m, n, code);
    }
  }

  lemma CrashAside(m: Machine, w: nat)
    requires Aside(m)
    ensures Aside(DoCrash(m, w))
  {
    hide VisitsFit, CodesFit, IdentitiesFit, OriginsFit;
    var n := DoCrash(m, w);
    OriginsSame(m, n);
    VisitsKept(m, n);
    CodesKept(m, n);
    IdentitiesKept(m, n);
  }

  lemma SweepAside(m: Machine, sweep: Sweep, now: int)
    requires Aside(m)
    ensures Aside(DoSweep(m, sweep, now))
  {
    hide RefreshFamilies.DeleteExpired, VisitsFit, IdentitiesFit, OriginsFit, SelectionFits, VisitFits;
    var n := DoSweep(m, sweep, now);
    OriginsSame(m, n);
    VisitsKept(m, n);
    IdentitiesKept(m, n);
  }

  lemma ElsewhereAside(m: Machine, db: Db)
    requires Aside(m) && Enabled(m, FlowStep.Elsewhere(db))
    ensures Aside(m.(db := db))
  {
    hide Aside, OriginsFit;
    OriginsSame(m, m.(db := db));
    CalmKeeps(m, m.(db := db));
  }

  lemma AsideStep(cfg: Config, m: Machine, s: FlowStep)
    requires Inv(cfg, m) && Enabled(m, s) && Tagged(m)
    ensures Aside(Next(cfg, m, s))
  {
    hide Inv, Holders, Aside, Tagged, DoPush, DoBegin, DoBeginPushed, DoPark, DoOffer, DoTake, DoDecide, DoAccept,
      DoChallenge, DoResend;
    hide DoVerify, DoProve, DoComplete, DoCrash, DoSweep, DoPeek, DoPick, DoRedeem;
    InvHolders(cfg, m);
    InvAside(cfg, m);
    match s
    case Push(uri, p) => PushAside(m, uri, p);
    case Begin(w, o) => BeginAside(cfg, m, w, o);
    case BeginPushed(w, uri, clientId, now, v) => BeginPushedAside(cfg, m, w, uri, clientId, now, v);
    case Park(w, token, now) => ParkAside(m, w, token, now);
    case Peek(w, token, id, now) => PeekAside(cfg, m, w, token, id, now);
    case Offer(w, hash, subject, emails, now) => OfferAside(m, w, hash, subject, emails, now);
    case Pick(w, hash, index, now) => PickAside(m, w, hash, index, now);
    case Take(w, token, page, now, checked) => TakeAside(cfg, m, w, token, page, now, checked);
    case Decide(w) => DecideAside(cfg, m, w);
    case Accept(w) => AcceptAside(cfg, m, w);
    case Challenge(w, id, mac, now, ttl) => ChallengeAside(m, w, id, mac, now, ttl);
    case Resend(id, mac, now, ttl) => ResendAside(m, id, mac, now, ttl);
    case Verify(w, id, guess, now) => VerifyAside(m, w, id, guess, now);
    case Prove(w) => ProveAside(cfg, m, w);
    case Complete(w, code, v, now) => CompleteAside(cfg, m, w, code, v, now);
    case Redeem(code, expected, binding, grant, material, now) =>
      RedeemAside(m, code, expected, binding, grant, material, now);
    case Crash(w) => CrashAside(m, w);
    case CleanedUp(sweep, now) => SweepAside(m, sweep, now);
    case Elsewhere(db) => ElsewhereAside(m, db);
  }

  lemma InvAside(cfg: Config, m: Machine)
    requires Inv(cfg, m)
    ensures Aside(m)
  {
    hide Tagged, Single, ContentsFit, VisitsFit, CodesFit, IdentitiesFit, OriginsFit;
  }

  // ---- Every run -----------------------------------------------------------------------------------

  lemma StepKeeps(cfg: Config, m: Machine, s: FlowStep)
    requires Inv(cfg, m) && Enabled(m, s) && Tagged(m)
    ensures Inv(cfg, Next(cfg, m, s)) && Lineage(m, Next(cfg, m, s))
  {
    hide Lineage, Next, Tagged, Single, ContentsFit, VisitsFit, CodesFit, IdentitiesFit, OriginsFit;
    HoldersStep(cfg, m, s);
    AsideStep(cfg, m, s);
  }

  // The machines a run goes through, any workers' steps in any order.
  ghost predicate Run(cfg: Config, trace: seq<Machine>, steps: seq<FlowStep>) {
    && |trace| == |steps| + 1 && trace[0] == START
    && forall i :: 0 <= i < |steps| ==>
         Tagged(trace[i]) && Enabled(trace[i], steps[i]) && trace[i + 1] == Next(cfg, trace[i], steps[i])
  }

  lemma {:induction false} ReachableInv(cfg: Config, trace: seq<Machine>, steps: seq<FlowStep>, i: nat)
    requires Run(cfg, trace, steps) && i < |trace|
    ensures Inv(cfg, trace[i])
  {
    if i > 0 {
      ReachableInv(cfg, trace, steps, i - 1);
      hide Inv, Next, Tagged, Enabled;
      StepKeeps(cfg, trace[i - 1], steps[i - 1]);
    }
  }

  lemma {:induction false} Descent(cfg: Config, trace: seq<Machine>, steps: seq<FlowStep>, i: nat, j: nat)
    requires Run(cfg, trace, steps) && i <= j < |trace|
    ensures Lineage(trace[i], trace[j])
  {
    hide Inv, Next, Tagged, Enabled, Lineage;
    if i < j {
      Descent(cfg, trace, steps, i, j - 1);
      ReachableInv(cfg, trace, steps, j - 1);
      StepKeeps(cfg, trace[j - 1], steps[j - 1]);
      LineageJoins(trace[i], trace[j - 1], trace[j]);
    } else {
      LineageSelf(trace[i]);
    }
  }

  lemma LineageSelf(m: Machine)
    ensures Lineage(m, m)
  {
  }

  lemma LineageJoins(a: Machine, b: Machine, c: Machine)
    requires Lineage(a, b) && Lineage(b, c)
    ensures Lineage(a, c)
  {
    forall h | h in c.tags ensures c.tags[h] >= a.log.next || c.tags[h] in a.tags.Values {
      if c.tags[h] in b.tags.Values {
        var k :| k in b.tags && b.tags[k] == c.tags[h];
      }
    }
  }

  // At no time do two rows, handlers or codes stand for one request.
  lemma AtMostOneTicket(cfg: Config, trace: seq<Machine>, steps: seq<FlowStep>, i: nat, h: Holder, k: Holder)
    requires Run(cfg, trace, steps) && i < |trace|
    requires Present(trace[i], h) && Present(trace[i], k) && h != k
    ensures h in trace[i].tags && k in trace[i].tags && trace[i].tags[h] != trace[i].tags[k]
  {
    ReachableInv(cfg, trace, steps, i);
  }

  // Two codes issued at any times of a run belong to different requests.
  lemma AtMostOneCode(cfg: Config, trace: seq<Machine>, steps: seq<FlowStep>, i: nat, j: nat, c: string, d: string)
    requires Run(cfg, trace, steps) && i <= j < |trace|
    requires c in trace[i].issued && d in trace[j].issued && c != d
    ensures Issued(c) in trace[i].tags && Issued(d) in trace[j].tags
    ensures trace[i].tags[Issued(c)] != trace[j].tags[Issued(d)]
  {
    ReachableInv(cfg, trace, steps, i);
    ReachableInv(cfg, trace, steps, j);
    Descent(cfg, trace, steps, i, j);
    assert Present(trace[i], Issued(c)) && Present(trace[j], Issued(d));
    hide Run;
  }

  // Tokens are given at most once for a code, and at most once for a request.
  lemma AtMostOneAnswer(cfg: Config, trace: seq<Machine>, steps: seq<FlowStep>, i: nat, a: nat, b: nat)
    requires Run(cfg, trace, steps) && i < |trace| && a < b < |trace[i].answered|
    ensures var m := trace[i];
      && m.answered[a] != m.answered[b]
      && Issued(m.answered[a]) in m.tags && Issued(m.answered[b]) in m.tags
      && m.tags[Issued(m.answered[a])] != m.tags[Issued(m.answered[b])]
  {
    ReachableInv(cfg, trace, steps, i);
    hide Run;
    var m := trace[i];
    assert Present(m, Issued(m.answered[a])) && Present(m, Issued(m.answered[b]));
  }

  // A request that has lost its holder never finds another.
  lemma LostForEver(cfg: Config, trace: seq<Machine>, steps: seq<FlowStep>, i: nat, j: nat, id: nat)
    requires Run(cfg, trace, steps) && i <= j < |trace| && id < trace[i].log.next && id !in trace[i].tags.Values
    ensures id !in trace[j].tags.Values
  {
    Descent(cfg, trace, steps, i, j);
    hide Run;
  }

  // Every code ever issued carries the request it was issued for: client, redirect, challenge,
  // nonce, scopes, refresh mode, authentication time and key; it was pushed exactly if the
  // request was, and then asks for what was pushed; an offline one follows an accepted consent;
  // a flow that manages grants has none; and the configured mode's evidence for the address is there.
  lemma CodeCarriesRequest(cfg: Config, trace: seq<Machine>, steps: seq<FlowStep>, i: nat, c: string)
    requires Run(cfg, trace, steps) && i < |trace| && c in trace[i].issued
    ensures var m := trace[i];
      && Issued(c) in m.tags && CodeFits(cfg, m.log, m.issued[c], m.tags[Issued(c)])
      && OriginFits(m.log.requests[m.tags[Issued(c)]])
  {
    ReachableInv(cfg, trace, steps, i);
    hide Run, CodeFits, OriginFits;
    assert Present(trace[i], Issued(c));
    assert ContentFits(cfg, trace[i].log, ContentOf(trace[i], Issued(c)), trace[i].tags[Issued(c)]);
  }

  // Unless verification is off, the address in a code was proved with a one-time code or asserted
  // as verified by the connector the code names; in the strict mode it was proved.
  lemma CodesAreVerified(cfg: Config, trace: seq<Machine>, steps: seq<FlowStep>, i: nat, c: string)
    requires Run(cfg, trace, steps) && i < |trace| && c in trace[i].issued && cfg.mode != "disabled"
    ensures var code := trace[i].issued[c];
      var id := Identity(code.connectorId, code.subject, code.email);
      && code.emailVerified && Vouched(cfg, trace[i].log, id)
      && (cfg.mode != "provider" ==> id in trace[i].log.proved)
  {
    CodeCarriesRequest(cfg, trace, steps, i, c);
    hide Run;
  }
}
