// The handlers of the authorization flow in internal/oidc, call by call. A handler works on the
// store; between its calls the other workers take any steps of the machine. Every handler is
// proved to be part of a run of the machine, so all that holds of runs holds of the handlers.
module FlowHandlers {
  import opened Common
  import opened RefreshFamilies
  import opened FlowTables
  import opened OtpTables
  import opened Database
  import opened StateStore
  import opened AuthorizationFlow
  import opened FlowTheorems
  import opened FlowRules

  datatype Response =
    | Refused
    | Consent(token: string)
    | Selector(token: string)
    | Upstream(token: string)
    | CodeEntry(id: string)
    | Identities
    | Grants
    | Redirect(uri: string, code: string, state: string)

  // What a connector says about the user, if anything.
  datatype Identified = Nobody | Somebody(subject: string, emails: seq<Email>)

  // A step that is not this worker's.
  predicate Others(s: FlowStep, w: nat) {
    match s
    case Begin(v, _) => v != w
    case BeginPushed(v, _, _, _, _) => v != w
    case Park(v, _, _) => v != w
    case Peek(v, _, _, _) => v != w
    case Offer(v, _, _, _, _) => v != w
    case Pick(v, _, _, _) => v != w
    case Take(v, _, _, _, _) => v != w
    case Decide(v) => v != w
    case Accept(v) => v != w
    case Challenge(v, _, _, _, _) => v != w
    case Verify(v, _, _, _) => v != w
    case Prove(v) => v != w
    case Complete(v, _, _, _) => v != w
    case Crash(v) => v != w
    case _ => true
  }

  // Nothing of worker w changes: its hand, its visit, the request it holds.
  predicate Untouched(m: Machine, n: Machine, w: nat) {
    && (w in n.hands <==> w in m.hands) && (w in m.hands ==> n.hands[w] == m.hands[w])
    && (w in n.visits <==> w in m.visits) && (w in m.visits ==> n.visits[w] == m.visits[w])
    && (Worker(w) in m.tags ==> Worker(w) in n.tags && n.tags[Worker(w)] == m.tags[Worker(w)])
  }

  lemma TakenUntouched(m: Machine, flow: Flow, v: nat, token: string, page: Page, hand: Option<Hand>, w: nat)
    requires StateRow(token) in m.tags && v != w
    ensures Untouched(m, TakenOver(m, flow, v, token, page, hand), w)
  {
    hide Noted;
  }

  lemma TakeUntouched(cfg: Config, m: Machine, v: nat, token: string, page: Page, now: int, checked: int, w: nat)
    requires Tagged(m) && v != w
    ensures Untouched(m, DoTake(cfg, m, v, token, page, now, checked), w)
  {
    hide Serve, GetAndDeleteState, TakenOver;
    var (flow, r) := GetAndDeleteState(m.db.flow, token, now, checked);
    if token in m.db.flow.states && token !in flow.states {
      assert Present(m, StateRow(token));
      hide Tagged, Present, Untouched;
      var visit := if v in m.visits then Some(m.visits[v]) else None;
      TakenUntouched(m, flow, v, token, page, if r.Ok? then
        Serve(cfg, page, Decoded(token, r.value), visit) else None, w);
    }
  }

  lemma BeginsUntouched(cfg: Config, m: Machine, s: FlowStep, w: nat)
    requires Tagged(m) && Enabled(m, s) && Others(s, w) && (s.Push? || s.Begin?)
    ensures Untouched(m, Next(cfg, m, s), w)
  {
    hide Tagged, Present, Opening, SavePushedRequest, DoBeginPushed;
    hide DoPark, DoPeek, DoOffer, DoPick, DoTake, DoDecide, DoAccept, DoChallenge, DoResend, DoVerify, DoProve,
      DoComplete, DoRedeem, DoCrash, DoSweep;
  }

  lemma BeginPushedUntouched(m: Machine, v: nat, uri: string, clientId: string, now: int, view: View, w: nat)
    requires Tagged(m) && v != w
    ensures Untouched(m, DoBeginPushed(m, v, uri, clientId, now, view), w)
  {
    hide Tagged, Present, PushedOrigin, Opening, ConsumePushedRequest;
  }

  lemma StatesUntouched(cfg: Config, m: Machine, s: FlowStep, w: nat)
    requires Tagged(m) && Enabled(m, s) && Others(s, w) && (s.Park? || s.Peek? || s.Offer? || s.Pick?)
    ensures Untouched(m, Next(cfg, m, s), w)
  {
    hide Tagged, Present, Asserted, Stored, SaveState, PeekState, CreateIdentitySelection, ConsumeIdentitySelection;
    hide DoPush, DoBegin, DoBeginPushed, DoTake, DoDecide, DoAccept, DoChallenge, DoResend, DoVerify, DoProve,
      DoComplete, DoRedeem, DoCrash, DoSweep;
  }

  lemma DecisionsUntouched(cfg: Config, m: Machine, s: FlowStep, w: nat)
    requires Tagged(m) && Enabled(m, s) && Others(s, w) && (s.Decide? || s.Accept? || s.Prove?)
    ensures Untouched(m, Next(cfg, m, s), w)
  {
    hide Tagged, Judge, Present, SaveCredential, DoTake, DoPush, DoBegin, DoBeginPushed, DoPark, DoPeek, DoOffer,
      DoPick, DoChallenge;
    hide DoComplete, DoResend, DoVerify, DoRedeem, DoCrash, DoSweep;
  }

  lemma ChallengesUntouched(cfg: Config, m: Machine, s: FlowStep, w: nat)
    requires Tagged(m) && Enabled(m, s) && Others(s, w) && (s.Challenge? || s.Resend? || s.Verify?)
    ensures Untouched(m, Next(cfg, m, s), w)
  {
    hide Tagged, Present, ResendOtp, CreateOtp, ConsumeOtp, Challenged, Resumed, DoTake, DoPush, DoBegin, DoBeginPushed,
      DoPark, DoPeek;
    hide DoOffer, DoPick, DoDecide, DoAccept, DoProve, DoComplete, DoRedeem, DoCrash, DoSweep;
  }

  lemma EndsUntouched(cfg: Config, m: Machine, s: FlowStep, w: nat)
    requires Tagged(m) && Enabled(m, s) && Others(s, w)
    requires s.Complete? || s.Redeem? || s.Crash? || s.CleanedUp? || s.Elsewhere?
    ensures Untouched(m, Next(cfg, m, s), w)
  {
    hide MayIssue, CleanUp, ConsumeAuthCode, SaveAuthCode, DoTake, DoPush, DoBegin, DoBeginPushed, DoPark, DoPeek,
      DoOffer, DoPick, DoDecide, DoAccept;
    hide DoChallenge, DoResend, DoVerify, DoProve, CodeFor;
    if s.CleanedUp? && Worker(w) in m.tags {
      assert Present(m, Worker(w));
    }
    hide Tagged;
  }

  // Others leave a worker alone.
  lemma OthersUntouched(cfg: Config, m: Machine, s: FlowStep, w: nat)
    requires Tagged(m) && Enabled(m, s) && Others(s, w)
    ensures Untouched(m, Next(cfg, m, s), w)
  {
    match s
    case Take(v, token, page, now, checked) =>
      TakeUntouched(cfg, m, v, token, page, now, checked, w);
      hide DoTake, Untouched;
    case Push(_, _) => BeginsUntouched(cfg, m, s, w);
    case Begin(_, _) => BeginsUntouched(cfg, m, s, w);
    case BeginPushed(v, uri, clientId, now, view) =>
      BeginPushedUntouched(m, v, uri, clientId, now, view, w);
      hide DoBeginPushed, Untouched;
    case Park(_, _, _) => StatesUntouched(cfg, m, s, w);
    case Peek(_, _, _, _) => StatesUntouched(cfg, m, s, w);
    case Offer(_, _, _, _, _) => StatesUntouched(cfg, m, s, w);
    case Pick(_, _, _, _) => StatesUntouched(cfg, m, s, w);
    case Decide(_) => DecisionsUntouched(cfg, m, s, w);
    case Accept(_) => DecisionsUntouched(cfg, m, s, w);
    case Challenge(_, _, _, _, _) => ChallengesUntouched(cfg, m, s, w);
    case Resend(_, _, _, _) => ChallengesUntouched(cfg, m, s, w);
    case Verify(_, _, _, _) => ChallengesUntouched(cfg, m, s, w);
    case Prove(_) => DecisionsUntouched(cfg, m, s, w);
    case _ => EndsUntouched(cfg, m, s, w);
  }

  // A random token: one that was never handed out before.
  method Random(used: set<string>) returns (token: string)
    ensures token !in used
  {
    token := "";
    var rest := used;
    while rest != {}
      invariant rest <= used && forall t :: t in used - rest ==> |t| < |token|
      decreases |rest|
    {
      var t :| t in rest;
      if |t| >= |token| {
        token := seq(|t| + 1, _ => 'x');
      }
      rest := rest - {t};
    }
    assert token in used ==> token in used - rest;
  }

  datatype Turn = Turn(elapsed: nat, steps: seq<FlowStep>)

  class Handlers {
    const store: Store
    const cfg: Config
    const w: nat
    const otpTtl: int
    const otpSecret: Bytes
    var m: Machine
    var turns: seq<Turn>
    var now: int
    ghost var trace: seq<Machine>
    ghost var steps: seq<FlowStep>

    constructor (cfg: Config, w: nat, otpTtl: int, otpSecret: Bytes, turns: seq<Turn>, now: int)
      ensures Synced() && Idle() && this.cfg == cfg && this.w == w && fresh(store)
    {
      this.cfg, this.w, this.otpTtl, this.otpSecret, this.turns, this.now := cfg, w, otpTtl, otpSecret, turns, now;
      store := new Store();
      m, trace, steps := START, [START], [];
    }

    // The machine is where a run of any workers' steps has taken it, and the store agrees.
    ghost predicate Synced()
      reads this, store
    {
      Run(cfg, trace, steps) && trace[|steps|] == m && store.Snapshot() == m.db
    }

    ghost predicate Idle()
      reads this
    {
      w !in m.hands && w !in m.visits
    }

    // Nobody else does anything any more.
    ghost predicate Alone()
      reads this`turns
    {
      turns == []
    }

    lemma InTrace()
      requires Synced()
      ensures m in trace
    {
    }

    lemma StoreAgrees()
      requires Synced()
      ensures store.FlowNow() == m.db.flow && store.OtpNow() == m.db.otp
    {
    }

    lemma MachineFits()
      requires Run(cfg, trace, steps) && trace[|steps|] == m
      ensures Inv(cfg, m) && Tagged(m)
    {
      ReachableInv(cfg, trace, steps, |steps|);
      hide Run;
    }

    // The machine takes a step; the store is up to the caller.
    method Perform(s: FlowStep)
      requires Run(cfg, trace, steps) && trace[|steps|] == m && Tagged(m) && Enabled(m, s) && !s.Resend?
      modifies this`m, this`trace, this`steps
      ensures Run(cfg, trace, steps) && trace[|steps|] == m && m == Next(cfg, old(m), s)
      ensures trace == old(trace) + [m] && steps == old(steps) + [s]
    {
      hide DoPush, DoBegin, DoBeginPushed, DoPark, DoPeek, DoOffer, DoPick, DoTake, DoDecide, DoAccept, DoChallenge,
        DoVerify, DoProve, DoComplete;
      hide DoRedeem, DoCrash, DoSweep, Tagged;
      assert |trace| == |steps| + 1;
      hide Run;
      match s {
        case Push(uri, p) => m := DoPush(m, uri, p);
        case Begin(v, o) => m := DoBegin(cfg, m, v, o);
        case BeginPushed(v, uri, clientId, t, view) => m := DoBeginPushed(m, v, uri, clientId, t, view);
        case Park(v, token, t) => m := DoPark(m, v, token, t);
        case Peek(v, token, id, t) => m := DoPeek(m, v, token, id, t);
        case Offer(v, hash, subject, emails, t) => m := DoOffer(m, v, hash, subject, emails, t);
        case Pick(v, hash, index, t) => m := DoPick(m, v, hash, index, t);
        case Take(v, token, page, t, checked) => m := DoTake(cfg, m, v, token, page, t, checked);
        case Decide(v) => m := DoDecide(cfg, m, v);
        case Accept(v) => m := DoAccept(m, v);
        case Challenge(v, id, mac, t, ttl) => m := DoChallenge(m, v, id, mac, t, ttl);
        case Verify(v, id, guess, t) => m := DoVerify(m, v, id, guess, t);
        case Prove(v) => m := DoProve(m, v);
        case Complete(v, code, view, t) => m := DoComplete(cfg, m, v, code, view, t);
        case Redeem(code, expected, binding, grant, material, t) =>
          m := DoRedeem(m, code, expected, binding, grant, material, t);
        case Crash(v) => m := DoCrash(m, v);
        case CleanedUp(sweep, t) => m := DoSweep(m, sweep, t);
        case Elsewhere(db) => m := m.(db := db);
      }
      RunGrows(cfg, trace, steps, s, m);
      trace, steps := trace + [m], steps + [s];
    }

    // The others take their turn and time passes.
    method Yield()
      requires Synced()
      modifies this, store
      ensures Synced() && Untouched(old(m), m, w) && now >= old(now) && Lineage(old(m), m) && old(trace) <= trace
      ensures old(Alone()) ==> Alone() && now == old(now) && m == old(m)
    {
      hide Run, Next, Lineage, Untouched, Inv;
      MachineFits();
      SameMachine(m, w);
      if turns != [] {
        var turn := turns[0];
        turns := turns[1..];
        now := now + turn.elapsed;
        for i := 0 to |turn.steps|
          invariant Synced() && Untouched(old(m), m, w) && now >= old(now) && Lineage(old(m), m) && old(trace) <= trace
        {
          var s := turn.steps[i];
          MachineFits();
          if Enabled(m, s) && Others(s, w) {
            ghost var before := m;
            Other(s);
            LineageJoins(old(m), before, m);
            UntouchedJoins(old(m), before, m, w);
          }
        }
      }
    }

    // One step of somebody else.
    method Other(s: FlowStep)
      requires Synced() && Tagged(m) && Enabled(m, s) && Others(s, w)
      modifies this`m, this`trace, this`steps, store
      ensures Synced() && Untouched(old(m), m, w) && Lineage(old(m), m) && old(trace) <= trace
    {
      hide Run, Next, Lineage, Untouched, Inv, Tagged, Enabled;
      MachineFits();
      OthersUntouched(cfg, m, s, w);
      StepKeeps(cfg, m, s);
      if s.Resend? {
        var _ := Resent(s);
      } else {
        Perform(s);
        store.Restore(m.db);
      }
    }

    // A resend, by this worker or another.
    method Resent(s: FlowStep) returns (r: Result<int, OtpError>)
      requires Synced() && s.Resend? && Tagged(m) && Enabled(m, s)
      modifies this`m, this`trace, this`steps, store
      ensures Synced() && m == Next(cfg, old(m), s) && trace == old(trace) + [m]
      ensures r == ResendOtp(old(m).db.otp, s.id, s.mac, s.now, s.ttl).1
    {
      hide Run, Next, Tagged, Enabled, ResendOtp;
      ghost var before := m;
      RunLength(cfg, trace, steps);
      r := store.ResendOTP(s.id, s.mac, s.now, s.ttl);
      m := m.(db := m.db.(otp := Otp(store.challenges, store.sends, store.nextRow)));
      ResentNext(cfg, before, m, s);
      RunGrows(cfg, trace, steps, s, m);
      trace, steps := trace + [m], steps + [s];
    }

    // This worker ends without an answer, or with nothing left to do.
    method Leave()
      requires Synced()
      modifies this`m, this`trace, this`steps
      ensures Synced() && Idle() && old(trace) <= trace && m.db == old(m.db) && m.log == old(m.log)
        && m.issued == old(m.issued)
      ensures forall h :: h != Worker(w) && h in old(m.tags) ==> h in m.tags && m.tags[h] == old(m.tags)[h]
    {
      hide Run, Tagged, Inv;
      MachineFits();
      Perform(Crash(w));
    }

    // The row goes, in the store and in the machine.
    method TakeNow(token: string, page: Page, checked: int) returns (r: Result<OAuthState, StoreError>)
      requires Synced() && Tagged(m) && Enabled(m, Take(w, token, page, now, checked))
      modifies this`m, this`trace, this`steps, store
      ensures Synced() && trace == old(trace) + [m]
      ensures m == DoTake(cfg, old(m), w, token, page, now, checked)
      ensures r == GetAndDeleteState(old(m).db.flow, token, now, checked).1
    {
      hide Run, GetAndDeleteState, DoTake, Tagged;
      TakeStores(cfg, m, w, token, page, now, checked);
      r := store.GetAndDeleteState(token, now, checked);
      Perform(Take(w, token, page, now, checked));
    }

    // before is the machine as the others left it.
    method TakeRow(
      token: string, page: Page, lag: nat) returns (r: Result<OAuthState, StoreError>, ghost before: Machine, at: int)
      requires Synced() && w !in m.hands
      requires page.CallbackPage? || page.IdentityPage? ==> w in m.visits && m.visits[w].token == token
      modifies this, store
      ensures Synced() && Tagged(before) && Untouched(old(m), before, w) && before in trace && old(trace) <= trace
      ensures m == DoTake(cfg, before, w, token, page, at, at + lag) && at == now
      ensures r == GetAndDeleteState(before.db.flow, token, at, at + lag).1
      ensures old(Alone()) ==> Alone() && now == old(now) && before == old(m)
    {
      hide Run, Inv, Lineage, DoTake, GetAndDeleteState, Tagged, Next, Untouched, Enabled;
      Yield();
      MachineFits();
      before, at := m, now;
      MayTake(old(m), m, w, token, page, at, at + lag);
      ghost var i := |steps|;
      RunLength(cfg, trace, steps);
      assert trace[i] == before;
      r := TakeNow(token, page, at + lag);
      assert trace[i] == before;
    }

    // DecodeState, for one of the pages.
    method DecodeState(token: string, page: Page, lag: nat) returns (r: Result<Context, StoreError>, ghost id: nat)
      requires Synced() && w !in m.hands
      requires page.CallbackPage? || page.IdentityPage? ==> w in m.visits && m.visits[w].token == token
      modifies this, store
      ensures Synced() && old(trace) <= trace
      ensures r.Err? ==> w !in m.hands && (w !in old(m.visits) ==> w !in m.visits)
      ensures Gone(m.db.flow, token, now) && (r.Ok? ==> token !in m.db.flow.states)
      ensures r.Ok? ==> r.value.flowId == token && w !in m.visits && Stood(trace, StateRow(token), id)
      ensures r.Ok? ==>
        var h := Serve(cfg, page, r.value, if w in old(m.visits) then Some(old(m.visits)[w]) else None);
        (w in m.hands <==> h.Some?) && (h.Some? ==> m.hands[w] == h.value && Holds(m, Worker(w), id))
      ensures old(Alone()) ==>
        && Alone() && now == old(now)
        && (r.Ok? <==> Open(old(m).db.flow, token, now + lag))
        && (r.Ok? ==>
              && r.value == Decoded(token, old(m).db.flow.states[token])
              && m.db == WithoutState(old(m).db, token))
    {
      hide Run, Synced, Tagged, Serve, DoTake, GetAndDeleteState;
      ghost var before;
      var s, at;
      s, before, at := TakeRow(token, page, lag);
      TakeOutcome(cfg, before, w, token, page, at, at + lag);
      TakeLeaves(before.db.flow, token, at, at + lag);
      OpenTaken(before.db, token, at, lag);
      if s.Err? {
        return Err(s.error), 0;
      }
      id := before.tags[StateRow(token)];
      WasStanding(trace, before, StateRow(token), id);
      return Ok(Decoded(token, s.value)), id;
    }

    method ParkNow(token: string, x: Context) returns (r: Result<(), StoreError>)
      requires Synced() && Tagged(m) && Enabled(m, Park(w, token, now)) && m.hands[w] == Parking(x)
      modifies this`m, this`trace, this`steps, store
      ensures Synced() && trace == old(trace) + [m]
      ensures m.db == old(m).db.(flow := SaveState(old(m).db.flow, token, Stored(x, now)).0)
      ensures m == DoPark(old(m), w, token, now) && r == SaveState(old(m).db.flow, token, Stored(x, now)).1
    {
      hide Run, SaveState, DoPark, Tagged, Stored;
      ParkOutcome(m, w, token, now);
      r := store.SaveState(token, Stored(x, now));
      Perform(Park(w, token, now));
    }

    // EncodeState of the flow in hand.
    method EncodeState(x: Context, ghost id: nat) returns (token: Option<string>)
      requires Synced() && w in m.hands && w !in m.visits && m.hands[w] == Parking(x) && Holds(m, Worker(w), id)
      modifies this, store
      ensures Synced() && Idle() && old(trace) <= trace
      ensures token.Some? ==>
        && Holds(m, StateRow(token.value), id) && Unused(trace, |old(trace)| - 1, token.value)
        && token.value in m.db.flow.states && m.db.flow.states[token.value] == Stored(x, now)
      ensures old(Alone()) ==>
        && Alone() && now == old(now) && token.Some? && token.value !in old(m).db.flow.states
        && m.db == WithState(old(m).db, token.value, Stored(x, now))
    {
      hide Run, Inv, Lineage, Tagged, Next, Stored;
      Yield();
      MachineFits();
      ghost var before, past := m, |trace| - 1;
      RunLength(cfg, trace, steps);
      var unused := Random(m.log.used);
      ParkOutcome(before, w, unused, now);
      SavedUnder(before.db.flow, unused, Stored(x, now));
      FreshState(cfg, before, unused, Stored(x, now));
      hide SaveState, DoPark;
      var r := ParkNow(unused, x);
      assert trace[past].log.used == before.log.used;
      if r.Err? {
        return None;
      }
      return Some(unused);
    }

    // continueAuthorization: on to the only connector, or to a choice of them.
    method ContinueAuthorization(x: Context, ghost id: nat) returns (r: Response)
      requires Synced() && w in m.hands && w !in m.visits && m.hands[w] == Parking(Continued(cfg, x))
        && Holds(m, Worker(w), id)
      modifies this, store
      ensures Synced() && Idle() && Answers(m, r, id) && old(trace) <= trace
      ensures r.Upstream? || r.Selector? || r.Refused?
      ensures old(Alone()) ==>
        && Alone() && now == old(now)
        && if cfg.sole.Some? && x.purpose != "authorize_create" then r.Upstream? else r.Selector?
      ensures r.Upstream? ==>
        && cfg.sole.Some? && r.token in m.db.flow.states
        && m.db.flow.states[r.token] == Stored(x.(connectorId := cfg.sole.value), now)
    {
      hide Run, Synced;
      if cfg.sole.Some? && x.purpose != "authorize_create" {
        var token := EncodeState(x.(connectorId := cfg.sole.value), id);
        return if token.Some? then Upstream(token.value) else Refused;
      }
      var token := EncodeState(x, id);
      return if token.Some? then Selector(token.value) else Refused;
    }

    method HandleConsent(token: string, accept: bool, lag: nat) returns (r: Response, ghost id: nat)
      requires Synced() && Idle()
      modifies this, store
      ensures Synced() && Idle() && Answers(m, r, id) && (!r.Refused? ==> Stood(trace, StateRow(token), id))
      ensures !accept ==> r.Refused? && Gone(m.db.flow, token, now)
      // Left alone, an accepted consent to an offline request goes on, and nothing else does.
      ensures old(Alone()) ==>
        var f := old(m).db.flow;
        var open := accept && Open(f, token, now + lag) && f.states[token].refreshMode == "offline";
        && (!r.Refused? <==> open)
        && (open ==>
              if cfg.sole.Some? && f.states[token].purpose != "authorize_create" then r.Upstream?
              else r.Selector?)
    {
      hide Run, Synced, Stood;
      var state;
      state, id := DecodeState(token, ConsentPage(accept), lag);
      if state.Err? || state.value.refreshMode != "offline" {
        return Refused, id;
      }
      if !accept {
        return Refused, id;
      }
      ghost var past := trace;
      r := ContinueAuthorization(state.value.(offlineConsent := true), id);
      StoodStays(past, trace, StateRow(token), id);
    }

    // HandleSelect and selectConnector.
    method HandleSelect(token: string, connector: string, running: bool, lag: nat) returns (r: Response, ghost id: nat)
      requires Synced() && Idle()
      modifies this, store
      ensures Synced() && Idle() && Answers(m, r, id) && (!r.Refused? ==> Stood(trace, StateRow(token), id))
      ensures !r.Refused? ==>
        && r.Upstream? && r.token in m.db.flow.states && m.db.flow.states[r.token].connectorId == connector
        && running && connector in cfg.kinds && cfg.kinds[connector] != "email"
      // Left alone, that is so exactly for a connector that runs and a state without one.
      ensures old(Alone()) ==>
        (r.Upstream? <==>
           && running && connector in cfg.kinds && cfg.kinds[connector] != "email"
           && Open(old(m).db.flow, token, now + lag) && old(m).db.flow.states[token].connectorId == "")
    {
      hide Run, Synced, Stood;
      var state;
      state, id := DecodeState(token, SelectPage(connector), lag);
      if state.Err? || state.value.connectorId != "" {
        return Refused, id;
      }
      if connector !in cfg.kinds || cfg.kinds[connector] == "email" {
        return Refused, id;
      }
      ghost var past := trace;
      var next := EncodeState(state.value.(connectorId := connector), id);
      StoodStays(past, trace, StateRow(token), id);
      if next.None? || !running {
        return Refused, id;
      }
      r := Upstream(next.value);
    }

    // HandleAuthorizeContinue: a page for a state it has only looked at, or on to the connector.
    method HandleAuthorizeContinue(token: string, lag: nat) returns (r: Response, ghost id: nat)
      requires Synced() && Idle()
      modifies this, store
      ensures Synced() && Idle() && Answers(m, r, id) && (!r.Refused? ==> Stood(trace, StateRow(token), id))
      // Left alone, a pushed request that has no connector yet goes on as its data ask.
      ensures old(Alone()) ==>
        var f := old(m).db.flow;
        if !Open(f, token, now) || !f.states[token].pushed || f.states[token].connectorId != "" then r == Refused
        else
          var s := f.states[token];
          if OfflineScope(s.scopes) then r == Consent(token)
          else if cfg.sole.None? || s.purpose == "authorize_create" then r == Selector(token)
          else r.Upstream? <==> Open(f, token, now + lag)
    {
      hide Run, Synced, Stood, Lineage;
      var peeked;
      peeked, id := Look(token);
      if peeked.Err? || !peeked.value.pushed || peeked.value.connectorId != "" {
        return Refused, id;
      }
      if OfflineScope(peeked.value.scopes) {
        return Consent(token), id;
      }
      if cfg.sole.None? || peeked.value.purpose == "authorize_create" {
        return Selector(token), id;
      }
      var state;
      state, id := DecodeState(token, ContinuePage, lag);
      if state.Err? {
        return Refused, id;
      }
      ghost var past := trace;
      var next := EncodeState(state.value.(connectorId := cfg.sole.value), id);
      StoodStays(past, trace, StateRow(token), id);
      r := if next.Some? then Upstream(next.value) else Refused;
    }

    // PeekState.
    method Look(token: string) returns (r: Result<Context, StoreError>, ghost id: nat)
      requires Synced() && Idle()
      modifies this, store
      ensures Synced() && Idle() && old(trace) <= trace
      ensures r.Ok? ==> Holds(m, StateRow(token), id) && Stood(trace, StateRow(token), id)
      ensures old(Alone()) ==>
        && Alone() && now == old(now) && m == old(m)
        && (r.Ok? <==> Open(m.db.flow, token, now))
        && (r.Ok? ==> r.value == Decoded(token, m.db.flow.states[token]))
    {
      hide Run, Inv, Lineage, Next, Enabled;
      Yield();
      MachineFits();
      var s := store.PeekState(token, now);
      if s.Err? {
        return Err(s.error), 0;
      }
      assert Present(m, StateRow(token));
      hide Tagged;
      id := m.tags[StateRow(token)];
      RunLength(cfg, trace, steps);
      WasStanding(trace, m, StateRow(token), id);
      return Ok(Decoded(token, s.value)), id;
    }

    // ---- One-time codes -----------------------------------------------------------------------------

    // beginOTP.
    method BeginOtp(h: Hand, code: string, ghost id: nat) returns (r: Response)
      requires Synced() && w in m.hands && w !in m.visits && m.hands[w] == h && h.Challenging?
        && Holds(m, Worker(w), id)
      modifies this, store
      ensures Synced() && Idle() && Answers(m, r, id) && old(trace) <= trace
      ensures r.CodeEntry? || r == Refused
      ensures old(Alone()) ==>
        && Alone() && now == old(now)
        && (r.CodeEntry? <==> QuotaLeft(old(m).db.otp, h.address, now))
    {
      hide Run, Synced, Inv, Lineage, Tagged, Next, DoChallenge, CreateOtp;
      Yield();
      var challenge := Random(m.log.used + m.db.otp.challenges.Keys);
      var created := ChallengeNow(challenge, Mac(otpSecret, challenge, code), h, id);
      r := if created then CodeEntry(challenge) else Refused;
    }

    method ChallengeNow(challenge: string, mac: Mac, h: Hand, ghost id: nat) returns (created: bool)
      requires Synced() && w in m.hands && w !in m.visits && m.hands[w] == h && h.Challenging?
        && Holds(m, Worker(w), id)
      modifies this`m, this`trace, this`steps, store
      ensures Synced() && Idle() && trace == old(trace) + [m] && (created ==> Holds(m, ChallengeRow(challenge), id))
      ensures created <==> challenge !in old(m).db.otp.challenges && QuotaLeft(old(m).db.otp, h.address, now)
    {
      hide Run, Inv, Tagged, Next, CreateOtp, Challenged;
      MachineFits();
      ChallengeOutcome(cfg, m, w, challenge, mac, now, otpTtl);
      QuotaExact(
        m.db.otp, challenge, h.address, mac, Challenged(h.x, h.connectorId, h.subject, h.address), now, otpTtl);
      var c := store.CreateOTP(challenge, h.address, mac, Challenged(h.x, h.connectorId, h.subject, h.address), now,
        otpTtl);
      Perform(FlowStep.Challenge(w, challenge, mac, now, otpTtl));
      created := c.Ok?;
    }

    // HandleEmailStart.
    method HandleEmailStart(token: string, connector: string, passed: bool, address: string, code: string, lag: nat)
      returns (r: Response, ghost id: nat)
      requires Synced() && Idle()
      modifies this, store
      ensures Synced() && Idle() && Answers(m, r, id) && (!r.Refused? ==> Stood(trace, StateRow(token), id))
      ensures !r.Refused? ==>
        r.CodeEntry? && passed && connector in cfg.kinds && cfg.kinds[connector] == "email" && address in cfg.normal
      // Left alone, a code is sent exactly for an email connector, a passed check, a usable address
      // with quota left and a state without a connector.
      ensures old(Alone()) ==>
        (r.CodeEntry? <==>
           && passed && connector in cfg.kinds && cfg.kinds[connector] == "email" && address in cfg.normal
           && Open(old(m).db.flow, token, now + lag) && old(m).db.flow.states[token].connectorId == ""
           && QuotaLeft(old(m).db.otp, cfg.normal[address], now))
    {
      hide Run, Synced, Stood;
      var state;
      state, id := DecodeState(token, EmailPage(connector, address, passed), lag);
      if state.Err? || state.value.connectorId != "" {
        return Refused, id;
      }
      if connector !in cfg.kinds || cfg.kinds[connector] != "email" {
        return Refused, id;
      }
      if !passed || address !in cfg.normal {
        return Refused, id;
      }
      ghost var past := trace;
      var email := cfg.normal[address];
      r := BeginOtp(Challenging(state.value.(connectorId := connector), connector, email, email), code, id);
      StoodStays(past, trace, StateRow(token), id);
    }

    // HandleEmailResend: the challenge keeps its place in the flow.
    method HandleEmailResend(challenge: string, code: string) returns (r: Result<int, OtpError>)
      requires Synced() && Idle()
      modifies this, store
      ensures Synced() && Idle()
      ensures old(Alone()) ==>
        (r.Ok? <==>
           && challenge in old(m).db.otp.challenges
           && var c := old(m).db.otp.challenges[challenge];
           && now < c.expiresAt && c.sentAt + MINUTE <= now && QuotaLeft(old(m).db.otp, c.email, now))
    {
      hide Inv, Lineage;
      Yield();
      MachineFits();
      ghost var before := m;
      ResentExact(m.db.otp, challenge, Mac(otpSecret, challenge, code), now, otpTtl);
      r := Resent(Resend(challenge, Mac(otpSecret, challenge, code), now, otpTtl));
      hide Run;
      assert m.hands == before.hands && m.visits == before.visits;
    }

    // ---- The end of the flow ------------------------------------------------------------------------

    // complete: a code for a flow that may have one.
    method CompleteFlow(h: Hand, view: View, ghost id: nat) returns (r: Response)
      requires Synced() && w in m.hands && w !in m.visits && m.hands[w] == h && h.Completing? && Holds(m, Worker(w), id)
      modifies this, store
      ensures Synced() && Idle() && Answers(m, r, id) && old(trace) <= trace
      ensures !r.Identities?
      // Nobody gets a code whom client, user and consent do not allow one; left alone, all others do.
      ensures r.Redirect? ==> MayHaveCode(h.x, view)
      ensures old(Alone()) ==>
        Alone() && now == old(now) && Finished(cfg, r, h.x, view, old(m).db.flow.credentials, now)
      // The code can then be redeemed, with the credential the flow had.
      ensures old(Alone()) && r.Redirect? ==>
        Deposited(m.db.flow, r.code, h, KeptBy(h.x, old(m).db.flow.credentials, now), now)
    {
      AllowedExactly(h.x, view);
      hide Finished, MayHaveCode, CredentialFits, KeptBy, Deposited, LoadFlowCredential, DecryptTemporaryCredential;
      hide Run, Synced, Inv, Lineage, Tagged, MayIssue, Objection, CredentialMissing, Holds, Answers, Untouched,
        CodeFor;
      var x := h.x;
      if Objection(x, view).Some? {
        FinishedExactly(cfg, Objection(x, view).value, x, view, m.db.flow.credentials, now);
        Leave();
        NothingAnswered(m, id);
        return Objection(x, view).value;
      }
      Yield();
      StillHolds(old(m), m, w, id);
      var fits, credential := CheckCredential(x);
      if !fits {
        FinishedExactly(cfg, Refused, x, view, m.db.flow.credentials, now);
        Leave();
        NothingAnswered(m, id);
        return Refused;
      }
      MayIssueThen(cfg, x, view, credential.Some?);
      ghost var credentials, at := m.db.flow.credentials, now;
      r := IssueCode(h, view.(credentialBacked := credential.Some?), credential, id);
      FinishedExactly(cfg, r, x, view, credentials, at);
    }

    // Whether the flow's temporary credential is as its connector has it.
    method CheckCredential(x: Context) returns (fits: bool, credential: Option<Credential>)
      requires Synced()
      ensures fits <==> CredentialFits(cfg, x, m.db.flow.credentials, now)
      ensures fits ==>
        credential == KeptBy(x, m.db.flow.credentials, now) && !CredentialMissing(cfg, x, credential.Some?)
    {
      hide CredentialFits, KeptBy, LoadFlowCredential, DecryptTemporaryCredential, Run, CredentialMissing;
      var found;
      found, credential := FindCredential(x);
      StoreAgrees();
      CredentialExactly(cfg, x, m.db.flow, now, found, credential);
      fits := found && !CredentialMissing(cfg, x, credential.Some?);
    }

    // The code, and the temporary credential under its name.
    method IssueCode(h: Hand, view: View, credential: Option<Credential>, ghost id: nat) returns (r: Response)
      requires Synced() && w in m.hands && w !in m.visits && m.hands[w] == h && h.Completing? && Holds(m, Worker(w), id)
      requires MayIssue(cfg, h.x, view)
      modifies this, store
      ensures Synced() && Idle() && Answers(m, r, id) && old(trace) <= trace
      ensures r.Redirect?
      ensures old(Alone()) ==> Alone() && now == old(now) && Deposited(m.db.flow, r.code, h, credential, now)
    {
      hide Deposited, SaveFlowCredential;
      hide Run, Synced, Inv, Lineage, Tagged, MayIssue, Holds, Answers, Untouched, CodeFor;
      var x := h.x;
      Yield();
      StillHolds(old(m), m, w, id);
      var code := Random(m.issued.Keys);
      CompleteNow(code, h, view, id);
      ghost var flow := m.db.flow;
      DepositedThen(flow, code, h, credential, now);
      if credential.Some? {
        r := Relabel(x, code, credential, id);
        return;
      }
      return Redirect(x.redirectUri, code, x.oidcState);
    }

    // The temporary credential of a flow, if it has one; found is false if it does not open.
    method FindCredential(x: Context) returns (found: bool, credential: Option<Credential>)
      ensures x.refreshMode == "" || x.flowId == "" ==> found && credential.None?
      ensures x.refreshMode != "" && x.flowId != "" ==>
        var loaded := LoadFlowCredential(store.FlowNow(), x.flowId, x.clientId, x.connectorId, now);
        if loaded.Ok? then
          && credential == DecryptTemporaryCredential(x.flowId, x.clientId, x.connectorId, loaded.value)
          && (found <==> credential.Some?)
        else found && credential.None?
    {
      found, credential := true, None;
      if x.refreshMode != "" && x.flowId != "" {
        var loaded := store.LoadFlowCredential(x.flowId, x.clientId, x.connectorId, now);
        if loaded.Ok? {
          credential := DecryptTemporaryCredential(x.flowId, x.clientId, x.connectorId, loaded.value);
          found := credential.Some?;
        }
      }
    }

    // GenerateCode; a code that was never issued cannot be in the table.
    method CompleteNow(code: string, h: Hand, view: View, ghost id: nat)
      requires Synced() && w in m.hands && w !in m.visits && m.hands[w] == h && h.Completing? && Holds(m, Worker(w), id)
      requires code !in m.issued && MayIssue(cfg, h.x, view)
      modifies this`m, this`trace, this`steps, store
      ensures Synced() && Idle() && trace == old(trace) + [m]
      ensures Answers(m, Redirect(h.x.redirectUri, code, h.x.oidcState), id)
      ensures m.db.flow == old(m).db.flow.(codes := m.db.flow.codes) && code in m.db.flow.codes
      ensures m.db.flow.codes[code] == CodeFor(h.x, h.subject, h.address, h.verified, now)
      ensures code in m.issued && m.issued[code] == CodeFor(h.x, h.subject, h.address, h.verified, now)
    {
      hide Run, Inv, Tagged, Next, MayIssue, SaveAuthCode, CodeFor, Fits, Answers;
      MachineFits();
      HandTag(cfg, m, w);
      FreshCode(cfg, m, code);
      CompleteOutcome(cfg, m, w, code, view, now);
      var c := store.SaveAuthCode(code, CodeFor(h.x, h.subject, h.address, h.verified, now));
      Perform(Complete(w, code, view, now));
    }

    // The temporary credential follows the flow to its code. It is saved after the code is, so a
    // failure here leaves a code that cannot be redeemed for a refresh token.
    method Relabel(x: Context, code: string, credential: Option<Credential>, ghost id: nat) returns (r: Response)
      requires Synced() && Idle() && Answers(m, Redirect(x.redirectUri, code, x.oidcState), id)
      modifies this, store
      ensures Synced() && Idle() && Answers(m, r, id) && old(trace) <= trace
      ensures r.Redirect?
      ensures r.code == code
      ensures old(Alone()) ==>
        && Alone() && now == old(now)
        && m.db.flow == SaveFlowCredential(
             old(m).db.flow, x.flowId, code,
             FlowCredential(
               x.clientId, x.connectorId, TemporaryBox(code, x.clientId, x.connectorId, credential), now + CODE_TTL))
    {
      hide Run, Synced, Inv, Tagged, SaveFlowCredential;
      Yield();
      SaveCredentialNow(x.flowId, code,
        FlowCredential(x.clientId, x.connectorId, TemporaryBox(code, x.clientId, x.connectorId, credential),
        now + CODE_TTL));
      return Redirect(x.redirectUri, code, x.oidcState);
    }

    method SaveCredentialNow(from: string, to: string, c: FlowCredential)
      requires Synced()
      modifies this`m, this`trace, this`steps, store
      ensures Synced() && trace == old(trace) + [m] && m == old(m).(db := m.db)
      ensures m.db == old(m).db.(flow := SaveFlowCredential(old(m).db.flow, from, to, c))
    {
      hide Run, Inv, Tagged;
      MachineFits();
      store.SaveFlowCredential(from, to, c);
      ghost var flow := SaveFlowCredential(m.db.flow, from, to, c);
      Perform(FlowStep.Elsewhere(m.db.(flow := m.db.flow.(credentials := store.credentials))));
    }

    // acceptOrChallenge.
    method AcceptOrChallenge(h: Hand, code: string, view: View, ghost id: nat) returns (r: Response)
      requires Synced() && w in m.hands && w !in m.visits && m.hands[w] == h && h.Asserting? && Holds(m, Worker(w), id)
      modifies this, store
      ensures Synced() && Idle() && Answers(m, r, id) && old(trace) <= trace
      ensures !r.Identities?
      ensures old(Alone()) ==> Alone() && now == old(now) && Judged(cfg, r, h, view, old(m).db, now)
    {
      hide Run, Synced, Inv, Lineage, Tagged;
      if Blank(h.subject) || h.email.address !in cfg.normal {
        Leave();
        return Refused;
      }
      var address := cfg.normal[h.email.address];
      Yield();
      var known, local := DecideNow(h, address, id);
      if VerificationAccepted(cfg.mode, h.email.verified, local) {
        if !known || h.email.verified {
          Yield();
          AcceptNow(id);
        }
        r := CompleteFlow(Completing(h.x, h.subject, address, local || h.email.verified), view, id);
        return;
      }
      if !cfg.mailer {
        return Refused;
      }
      r := BeginOtp(Challenging(h.x, h.connectorId, h.subject, address), code, id);
    }

    // CredentialVerified, and what follows from it.
    method DecideNow(h: Hand, address: string, ghost id: nat) returns (known: bool, local: bool)
      requires Synced() && w in m.hands && w !in m.visits && m.hands[w] == h && h.Asserting? && Holds(m, Worker(w), id)
      requires h.email.address in cfg.normal && address == cfg.normal[h.email.address]
      modifies this`m, this`trace, this`steps
      ensures Synced() && w !in m.visits && trace == old(trace) + [m] && m.db == old(m).db
      ensures known <==> Identity(h.connectorId, h.subject, address) in m.db.flow.accepted
      ensures local <==> known && m.db.flow.accepted[Identity(h.connectorId, h.subject, address)]
      ensures var accepted := VerificationAccepted(cfg.mode, h.email.verified, local);
        var next :=
          if accepted && (!known || h.email.verified) then
            Some(Accepting(h.x, h.connectorId, h.subject, address, local, local || h.email.verified))
          else if accepted then Some(Completing(h.x, h.subject, address, local || h.email.verified))
          else if cfg.mailer then Some(Challenging(h.x, h.connectorId, h.subject, address))
          else None;
        if next.Some? then w in m.hands && m.hands[w] == next.value && Holds(m, Worker(w), id) else w !in m.hands
    {
      hide Run, Inv, Tagged;
      MachineFits();
      known, local := store.CredentialVerified(Identity(h.connectorId, h.subject, address));
      Perform(Decide(w));
    }

    // SaveCredential for an accepted identity.
    method AcceptNow(ghost id: nat)
      requires Synced() && w in m.hands && w !in m.visits && m.hands[w].Accepting? && Holds(m, Worker(w), id)
      modifies this`m, this`trace, this`steps, store
      ensures Synced() && w !in m.visits && trace == old(trace) + [m] && Holds(m, Worker(w), id)
      ensures m.db.flow.credentials == old(m).db.flow.credentials
      ensures var h := old(m).hands[w]; w in m.hands && m.hands[w] == Completing(h.x, h.subject, h.address, h.verified)
    {
      hide Run, Inv, Tagged, SaveCredential;
      MachineFits();
      var h := m.hands[w];
      store.SaveCredential(Identity(h.connectorId, h.subject, h.address), h.local);
      Perform(Accept(w));
    }

    // HandleEmailVerify: a right code resumes the flow the challenge stands for.
    method HandleEmailVerify(challenge: string, code: string, view: View) returns (r: Response, ghost id: nat)
      requires Synced() && Idle()
      modifies this, store
      ensures Synced() && Idle() && Answers(m, r, id) && (!r.Refused? ==> Stood(trace, ChallengeRow(challenge), id))
      // Left alone, the right code finishes the flow it was sent for, and any other is refused.
      ensures old(Alone()) ==>
        if |code| == 8 && Matches(old(m).db.otp, challenge, Mac(otpSecret, challenge, code), now) then
          Finished(
            cfg, r, Resumed(old(m).db.otp.challenges[challenge].flow), view, old(m).db.flow.credentials, now)
        else r == Refused
    {
      hide OtpFlowOf, Finished, Matches, Run, Synced, Stood, Lineage, Untouched, Holds, Answers;
      id := 0;
      NothingAnswered(m, id);
      if |code| != 8 {
        return Refused, id;
      }
      var active := LookFor(challenge);
      Shown(m.db.otp, challenge, Mac(otpSecret, challenge, code), now);
      NothingAnswered(m, id);
      if !active {
        return Refused, id;
      }
      InTrace();
      ghost var before := m;
      var flow;
      flow, id := VerifyNow(challenge, Mac(otpSecret, challenge, code));
      NothingAnswered(m, id);
      if flow.Err? {
        return Refused, id;
      }
      WasStanding(trace, before, ChallengeRow(challenge), id);
      ghost var past, seen := trace, m;
      Yield();
      StillHolds(seen, m, w, id);
      ProveNow(id);
      r := CompleteFlow(Completing(Resumed(flow.value), flow.value.subject, flow.value.email, true), view, id);
      StoodStays(past, trace, ChallengeRow(challenge), id);
    }

    // OTPFlow, before the code is looked at.
    method LookFor(challenge: string) returns (active: bool)
      requires Synced() && Idle()
      modifies this, store
      ensures Synced() && Idle() && (active <==> OtpFlowOf(m.db.otp, challenge, now).Ok?)
      ensures old(Alone()) ==> Alone() && now == old(now) && m == old(m)
    {
      hide Run, Synced, Lineage, Untouched, OtpFlowOf;
      Yield();
      StillIdle(old(m), m, w);
      StoreAgrees();
      var found := store.OTPFlow(challenge, now);
      active := found.Ok?;
    }

    // ConsumeOTP.
    method VerifyNow(challenge: string, guess: Mac) returns (r: Result<OtpFlow, OtpError>, ghost id: nat)
      requires Synced() && Idle()
      modifies this`m, this`trace, this`steps, store
      ensures Synced() && w !in m.visits && trace == old(trace) + [m] && (r.Err? ==> Idle())
      ensures m.db.flow == old(m).db.flow
      ensures r.Ok? <==> Matches(old(m).db.otp, challenge, guess, now)
      ensures r.Ok? ==> r.value == old(m).db.otp.challenges[challenge].flow
      ensures r.Ok? ==>
        var f := r.value;
        && w in m.hands && m.hands[w] == Proving(Resumed(f), f.connectorId, f.subject, f.email)
        && Holds(m, Worker(w), id) && Holds(old(m), ChallengeRow(challenge), id)
    {
      hide Run, Inv, Tagged, Next, ConsumeOtp, Resumed;
      MachineFits();
      MatchesExactly(m.db.otp, challenge, guess, now);
      VerifyOutcome(cfg, m, w, challenge, guess, now);
      id := if ChallengeRow(challenge) in m.tags then m.tags[ChallengeRow(challenge)] else 0;
      r := store.ConsumeOTP(challenge, guess, now);
      Perform(Verify(w, challenge, guess, now));
    }

    // SaveCredential of a proved address.
    method ProveNow(ghost id: nat)
      requires Synced() && w in m.hands && w !in m.visits && m.hands[w].Proving? && Holds(m, Worker(w), id)
      modifies this`m, this`trace, this`steps, store
      ensures Synced() && w !in m.visits && trace == old(trace) + [m] && Holds(m, Worker(w), id)
      ensures m.db.flow.credentials == old(m).db.flow.credentials
      ensures var h := old(m).hands[w]; w in m.hands && m.hands[w] == Completing(h.x, h.subject, h.address, true)
    {
      hide Run, Inv, Tagged, SaveCredential;
      MachineFits();
      var h := m.hands[w];
      store.SaveCredential(Identity(h.connectorId, h.subject, h.address), true);
      Perform(Prove(w));
    }

    // ---- Upstream logins ------------------------------------------------------------------------------

    // HandleCallback: the state is taken only when one address is known; several addresses leave
    // it in place for the user to choose.
    method HandleCallback(
      token: string, connector: string, failed: bool, running: bool, exchanged: Option<Credential>,
      identity: Identified,
      hash: Digest, code: string, view: View, lag: nat) returns (r: Response, ghost id: nat)
      requires Synced() && Idle()
      modifies this, store
      ensures Synced() && Idle() && Answers(m, r, id)
      ensures !r.Refused? && !r.Identities? ==> Stood(trace, StateRow(token), id)
      ensures r.Identities? ==> Offered(m.db.flow, hash, token)
      // Left alone, several addresses lead to a choice and one to what becomes of it.
      ensures old(Alone()) ==>
        var f := old(m).db.flow;
        if !(&& Open(f, token, now) && connector != "" && f.states[token].connectorId == connector
             && !failed && running && exchanged.Some?) then r == Refused
        else
          Resolved(
            cfg, r, token, connector, identity, hash, view, CalledBack(old(m).db, token, connector, exchanged, now),
            now, lag)
    {
      hide Resolved, SaveFlowCredential, CalledBack, Run, Synced, Stood, Lineage, Untouched, Holds, Answers;
      id := 0;
      Yield();
      StillIdle(old(m), m, w);
      var state := PeekNow(token, connector);
      SavedBack(m.db, token, connector, exchanged, now);
      if state.Err? || failed || connector == "" || connector != state.value.connectorId || !running
        || exchanged.None? {
        Leave();
        NothingAnswered(m, id);
        return Refused, id;
      }
      if state.value.refreshMode != "" {
        ghost var before := m;
        Yield();
        StillVisits(before, m, w);
        SaveCredentialNow("", token,
                          FlowCredential(state.value.clientId, connector,
                            TemporaryBox(token, state.value.clientId, connector, exchanged), now + STATE_TTL));
      }
      ghost var past := trace;
      r, id := Identify(token, connector, identity, hash, code, view, lag);
    }

    // What the connector's identity leads to, when the state has been seen.
    method Identify(
      token: string, connector: string, identity: Identified, hash: Digest, code: string, view: View, lag: nat)
      returns (r: Response, ghost id: nat)
      requires Synced() && w !in m.hands && w in m.visits && m.visits[w] == CallingBack(token, connector)
      modifies this, store
      ensures Synced() && Idle() && Answers(m, r, id) && old(trace) <= trace
      ensures !r.Refused? && !r.Identities? ==> Stood(trace, StateRow(token), id)
      ensures r.Identities? ==> Offered(m.db.flow, hash, token)
      ensures old(Alone()) ==>
        && Alone() && now == old(now)
        && Resolved(cfg, r, token, connector, identity, hash, view, old(m).db, now, lag)
    {
      hide Run, Synced, Stood, Lineage, Untouched, Holds, Answers, Judged;
      id := 0;
      if identity.Nobody? || Blank(identity.subject) || |identity.emails| == 0 {
        Leave();
        NothingAnswered(m, id);
        return Refused, id;
      }
      if |identity.emails| > 1 {
        ghost var before := m;
        Yield();
        StillVisits(before, m, w);
        var offered := OfferNow(hash, identity.subject, identity.emails);
        NothingAnswered(m, id);
        return if offered then Identities else Refused, id;
      }
      var decoded;
      decoded, id := DecodeState(token, CallbackPage(identity.subject, identity.emails[0]), lag);
      if decoded.Err? {
        Leave();
        NothingAnswered(m, id);
        return Refused, id;
      }
      ghost var past := trace;
      ghost var h, db := Asserting(decoded.value, connector, identity.subject, identity.emails[0]), m.db;
      r := AcceptOrChallenge(Asserting(decoded.value, connector, identity.subject, identity.emails[0]), code, view, id);
      if old(Alone()) {
        JudgedAlike(cfg, r, h, view, old(m).db, db, now);
      }
      StoodStays(past, trace, StateRow(token), id);
    }

    // PeekState, by a handler that will come back for the row.
    method PeekNow(token: string, connector: string) returns (r: Result<Context, StoreError>)
      requires Synced() && Idle()
      modifies this`m, this`trace, this`steps
      ensures Synced() && w !in m.hands && trace == old(trace) + [m] && m.db == old(m).db
      ensures r.Ok? <==> Open(m.db.flow, token, now)
      ensures r.Ok? ==> r.value == Decoded(token, m.db.flow.states[token])
      ensures r.Ok? && connector != "" && r.value.connectorId == connector ==>
        w in m.visits && m.visits[w] == CallingBack(token, connector)
    {
      hide Run, Inv, Tagged;
      MachineFits();
      var s := store.PeekState(token, now);
      Perform(Peek(w, token, connector, now));
      r := if s.Ok? then Ok(Decoded(token, s.value)) else Err(s.error);
    }

    // CreateIdentitySelection.
    method OfferNow(hash: Digest, subject: string, emails: seq<Email>) returns (offered: bool)
      requires Synced() && w !in m.hands && w in m.visits && m.visits[w].CallingBack?
      modifies this`m, this`trace, this`steps, store
      ensures Synced() && Idle() && trace == old(trace) + [m]
      ensures var f, visit := old(m).db.flow, old(m).visits[w];
        offered <==>
          && visit.token in f.states && now < f.states[visit.token].expiresAt
          && now < f.states[visit.token].createdAt + STATE_TTL && hash !in f.selections
      ensures offered ==> Offered(m.db.flow, hash, old(m).visits[w].token)
    {
      hide Run, Inv, Tagged, CreateIdentitySelection, Asserted;
      MachineFits();
      var visit := m.visits[w];
      OfferLeaves(m.db.flow, hash, visit, subject, emails, now);
      var c := store.CreateIdentitySelection(hash, visit.token, visit.connectorId, subject, emails, STATE_TTL,
        SELECTION_TTL, now);
      Perform(Offer(w, hash, subject, emails, now));
      offered := c.Ok?;
    }

    // HandleIdentitySelect: the selection and the state it points to are both spent.
    method HandleIdentitySelect(hash: Digest, index: Option<nat>, code: string, view: View, lag: nat)
      returns (r: Response, ghost id: nat, ghost token: string)
      requires Synced() && Idle()
      modifies this, store
      ensures Synced() && Idle() && Answers(m, r, id)
      ensures !r.Refused? ==> Chosen(trace, hash, token) && Stood(trace, StateRow(token), id)
      // Left alone, the choice decides for an address that was offered, and any other is refused.
      ensures old(Alone()) ==>
        var f := old(m).db.flow;
        if index.Some? && Pickable(f, hash, index.value, now) && Open(f, f.selections[hash].state, now + lag)
           && f.states[f.selections[hash].state].connectorId == f.selections[hash].connectorId then
          var chosen := f.selections[hash];
          Judged(
            cfg, r,
            Asserting(
              Decoded(chosen.state, f.states[chosen.state]), chosen.connectorId, chosen.subject,
              chosen.emails[index.value]),
            view, old(m).db, now)
        else r == Refused
    {
      hide Judged, Run, Synced, Stood, Lineage, Untouched, Holds, Answers, Chosen;
      id, token := 0, "";
      Yield();
      StillIdle(old(m), m, w);
      InTrace();
      ghost var before := m;
      var picked := PickNow(hash, if index.Some? then index.value else 0);
      if picked.None? || index.None? {
        Leave();
        NothingAnswered(m, id);
        return Refused, id, token;
      }
      var v := picked.value;
      token := v.token;
      WasChosen(trace, before, hash, token);
      ghost var past := trace;
      var decoded;
      decoded, id := DecodeState(v.token, IdentityPage, lag);
      ChosenStays(past, trace, hash, token);
      NothingAnswered(m, id);
      if decoded.Err? || decoded.value.connectorId != v.connectorId {
        Leave();
        NothingAnswered(m, id);
        return Refused, id, token;
      }
      past := trace;
      ghost var h, db := Asserting(decoded.value, v.connectorId, v.subject, v.email), m.db;
      r := AcceptOrChallenge(Asserting(decoded.value, v.connectorId, v.subject, v.email), code, view, id);
      if old(Alone()) {
        JudgedAlike(cfg, r, h, view, old(m).db, db, now);
      }
      ChosenStays(past, trace, hash, token);
      StoodStays(past, trace, StateRow(token), id);
    }

    // ConsumeIdentitySelection, and the address the user has chosen.
    method PickNow(hash: Digest, index: nat) returns (r: Option<Visit>)
      requires Synced() && Idle()
      modifies this`m, this`trace, this`steps, store
      ensures Synced() && w !in m.hands && trace == old(trace) + [m]
      ensures r.Some? <==> Pickable(old(m).db.flow, hash, index, now)
      ensures m.db == old(m).db.(flow := old(m).db.flow.(selections := m.db.flow.selections))
      ensures r.Some? ==>
        var chosen := old(m).db.flow.selections[hash];
        r.value == Picking(chosen.state, chosen.connectorId, chosen.subject, chosen.emails[index])
      ensures r.Some? ==> r.value.Picking? && w in m.visits && m.visits[w] == r.value
      ensures r.Some? ==>
        hash in old(m).db.flow.selections && old(m).db.flow.selections[hash].state == r.value.token
          && hash !in m.db.flow.selections
    {
      hide Run, Inv, Tagged;
      MachineFits();
      var c := store.ConsumeIdentitySelection(hash, now);
      Perform(Pick(w, hash, index, now));
      if c.Ok? && index < |c.value.emails| {
        r := Some(Picking(c.value.state, c.value.connectorId, c.value.subject, c.value.emails[index]));
      } else {
        r := None;
      }
    }

    // ---- Beginnings -------------------------------------------------------------------------------------

    // HandleAuthorize, for a request whose parameters are valid, and HandleGrants.
    method HandleAuthorize(o: Origin) returns (r: Response, ghost id: nat)
      requires Synced() && Idle()
      modifies this, store
      ensures Synced() && Idle() && Answers(m, r, id) && AskedFor(trace, id, Running(o, None))
      ensures o.refreshMode == "offline" ==> r.Consent? || r.Refused?
      ensures o.refreshMode != "offline" ==> !r.Consent?
      // Left alone, a request is always taken on, by a page for it or to the only connector.
      ensures old(Alone()) ==>
        if o.refreshMode == "offline" then r.Consent?
        else if cfg.sole.Some? && o.purpose != "authorize_create" then r.Upstream?
        else r.Selector?
    {
      hide Run, Synced, AskedFor, Untouched, Answers, Holds;
      id := BeginNow(o);
      ghost var past := trace;
      var x := Opening(o, false);
      if o.refreshMode == "offline" {
        var token := EncodeState(x, id);
        NothingAnswered(m, id);
        SelectorAnswers(m, id);
        r := if token.Some? then Consent(token.value) else Refused;
      } else {
        r := ContinueAuthorization(x, id);
      }
      AskedStays(past, trace, id, Running(o, None));
    }

    method BeginNow(o: Origin) returns (ghost id: nat)
      requires Synced() && Idle()
      modifies this`m, this`trace, this`steps
      ensures Synced() && w in m.hands && w !in m.visits && Holds(m, Worker(w), id)
      ensures AskedFor(trace, id, Running(o, None)) && m.db == old(m).db
      ensures m.hands[w] == Parking(if o.refreshMode == "offline" then
        Opening(o, false) else Continued(cfg, Opening(o, false)))
    {
      hide Run, Inv, Tagged;
      MachineFits();
      id := m.log.next;
      RunLength(cfg, trace, steps);
      Perform(Begin(w, o));
      assert trace[|trace| - 1] == m;
    }

    // handlePushedAuthorize.
    method HandlePushedAuthorize(uri: string, clientId: string, view: View) returns (r: Response, ghost id: nat)
      requires Synced() && Idle()
      modifies this, store
      ensures Synced() && Idle() && Answers(m, r, id) && (!r.Refused? ==> Stood(trace, PushedRow(uri), id))
      // Left alone, the client's own pushed request is taken on until it expires, if the client may
      // still ask for what it says.
      ensures old(Alone()) ==>
        (r.Selector? <==>
           && uri in old(m).db.flow.pushed
           && var p := old(m).db.flow.pushed[uri];
           && p.clientId == clientId && now < p.expiresAt && view.redirectAllowed && view.acceptsBinding
           && (OfflineScope(p.scopes) ==> view.refreshEnabled && view.allowOffline)
           && (p.prompt == "" || p.prompt == "login" || p.prompt == "create"))
    {
      hide Run, Synced, Stood, Lineage, Untouched, Answers, Holds;
      id := 0;
      Yield();
      StillIdle(old(m), m, w);
      InTrace();
      ghost var before := m;
      var x;
      x, id := ConsumeNow(uri, clientId, view);
      NothingAnswered(m, id);
      if x.None? {
        return Refused, id;
      }
      WasStanding(trace, before, PushedRow(uri), id);
      ghost var past := trace;
      var token := EncodeState(x.value, id);
      StoodStays(past, trace, PushedRow(uri), id);
      NothingAnswered(m, id);
      SelectorAnswers(m, id);
      r := if token.Some? then Selector(token.value) else Refused;
    }

    // ConsumePushedRequest, and what the request has become.
    method ConsumeNow(uri: string, clientId: string, view: View) returns (x: Option<Context>, ghost id: nat)
      requires Synced() && Idle()
      modifies this`m, this`trace, this`steps, store
      ensures Synced() && w !in m.visits && trace == old(trace) + [m]
      ensures if x.Some? then
          w in m.hands && m.hands[w] == Parking(x.value) && Holds(m, Worker(w), id) && Holds(old(m), PushedRow(uri), id)
        else w !in m.hands
      ensures x.Some? <==>
        && uri in old(m).db.flow.pushed
        && var p := old(m).db.flow.pushed[uri];
        && p.clientId == clientId && now < p.expiresAt && PushedOrigin(p, view, now).Some?
    {
      hide Run, Inv, Tagged, Next, ConsumePushedRequest, Opening, PushedOrigin;
      MachineFits();
      PushedThere(m.db.flow, uri, clientId, now);
      PushedOutcome(cfg, m, w, uri, clientId, now, view);
      id := if PushedRow(uri) in m.tags then m.tags[PushedRow(uri)] else 0;
      var c := store.ConsumePushedRequest(uri, clientId, now);
      Perform(BeginPushed(w, uri, clientId, now, view));
      if c.Err? {
        return None, id;
      }
      var o := PushedOrigin(c.value, view, now);
      x := if o.Some? then Some(Opening(o.value, true)) else None;
    }
  }

  // ---- What a handler does, left alone --------------------------------------------------------------

  // There is a state under the token that has not expired by then.
  predicate Open(f: Flow, token: string, until: int) {
    token in f.states && until <= f.states[token].expiresAt
  }

  function WithoutState(db: Db, token: string): Db {
    db.(flow := db.flow.(states := db.flow.states - {token}))
  }

  function WithState(db: Db, token: string, s: OAuthState): Db {
    db.(flow := db.flow.(states := db.flow.states[token := s]))
  }

  // Fewer than five codes were sent to the address in the last hour.
  predicate QuotaLeft(o: Otp, email: string, now: int) {
    |set r | r in o.sends && o.sends[r].email == email && now - HOUR < o.sends[r].at| < 5
  }

  // The challenge waits for this code.
  predicate Matches(o: Otp, challenge: string, guess: Mac, now: int) {
    && challenge in o.challenges
    && var c := o.challenges[challenge];
    && now < c.expiresAt && c.attempts < 5 && c.mac == guess
  }

  // The flow's temporary credential opens, if there is one; and a flow that asks for refresh tokens
  // has one exactly if its connector keeps them.
  predicate CredentialFits(cfg: Config, x: Context, credentials: map<string, FlowCredential>, now: int) {
    x.refreshMode != "" ==>
      var kept :=
        && x.flowId != "" && x.flowId in credentials && credentials[x.flowId].clientId == x.clientId
        && credentials[x.flowId].connectorId == x.connectorId && now < credentials[x.flowId].expiresAt;
      && x.connectorId in cfg.kinds && (kept <==> cfg.kinds[x.connectorId] != "email")
      && (kept ==>
            DecryptTemporaryCredential(x.flowId, x.clientId, x.connectorId, credentials[x.flowId].box).Some?)
  }

  // The credential kept for the flow, if it opens.
  function KeptBy(x: Context, credentials: map<string, FlowCredential>, now: int): Option<Credential> {
    if x.refreshMode != "" && x.flowId != "" && x.flowId in credentials && credentials[x.flowId].clientId == x.clientId
       && credentials[x.flowId].connectorId == x.connectorId && now < credentials[x.flowId].expiresAt
    then DecryptTemporaryCredential(x.flowId, x.clientId, x.connectorId, credentials[x.flowId].box) else None
  }

  // The code stands for what the handler had in hand, for five minutes, and the flow's credential
  // has moved to it.
  predicate Deposited(f: Flow, code: string, h: Hand, credential: Option<Credential>, now: int)
    requires h.Completing?
  {
    && code in f.codes
    && var c := f.codes[code];
    && c.clientId == h.x.clientId && c.redirectUri == h.x.redirectUri && c.codeChallenge == h.x.codeChallenge
    && c.email == h.address && c.emailVerified == h.verified && c.subject == h.subject
    && c.connectorId == h.x.connectorId && c.createdAt == now && c.expiresAt == now + 5 * 60_000_000_000
    && (credential.Some? ==>
          && code in f.credentials && f.credentials[code].clientId == h.x.clientId
          && f.credentials[code].connectorId == h.x.connectorId
          && now + 5 * 60_000_000_000 <= f.credentials[code].expiresAt
          && DecryptTemporaryCredential(code, h.x.clientId, h.x.connectorId, f.credentials[code].box) == credential
          && (h.x.flowId != "" && h.x.flowId != code ==> h.x.flowId !in f.credentials))
  }

  lemma DepositedThen(f: Flow, code: string, h: Hand, credential: Option<Credential>, now: int)
    requires h.Completing? && code in f.codes
    requires f.codes[code] == CodeFor(h.x, h.subject, h.address, h.verified, now)
    ensures credential.None? ==> Deposited(f, code, h, credential, now)
    ensures credential.Some? ==>
      var box := TemporaryBox(code, h.x.clientId, h.x.connectorId, credential);
      var saved := SaveFlowCredential(
        f, h.x.flowId, code, FlowCredential(h.x.clientId, h.x.connectorId, box, now + CODE_TTL));
      Deposited(saved, code, h, credential, now)
  {
  }

  // How the flow of an accepted user ends.
  predicate Finished(
    cfg: Config, r: Response, x: Context, v: View, credentials: map<string, FlowCredential>, now: int) {
    && (r.Grants? || r.Redirect? || r == Refused)
    && (r.Grants? <==> x.purpose == "manage_grants")
    && (r.Redirect? <==> MayHaveCode(x, v) && CredentialFits(cfg, x, credentials, now))
  }

  lemma FinishedExactly(
    cfg: Config, r: Response, x: Context, v: View, credentials: map<string, FlowCredential>, now: int)
    requires
      if Objection(x, v).Some? then r == Objection(x, v).value
      else if CredentialFits(cfg, x, credentials, now) then r.Redirect?
      else r == Refused
    ensures Finished(cfg, r, x, v, credentials, now)
  {
    AllowedExactly(x, v);
    hide MayHaveCode, CredentialFits, Objection;
  }

  // What becomes of an asserted identity: its address has to be usable and, as the mode asks,
  // asserted as verified, proved before, or proved now by a code.
  predicate Judged(cfg: Config, r: Response, h: Hand, v: View, db: Db, now: int)
    requires h.Asserting?
  {
    if Blank(h.subject) || h.email.address !in cfg.normal then r == Refused
    else
      var address := cfg.normal[h.email.address];
      var id := Identity(h.connectorId, h.subject, address);
      if (|| cfg.mode == "disabled" || (id in db.flow.accepted && db.flow.accepted[id])
          || (cfg.mode == "provider" && h.email.verified)) then
        Finished(cfg, r, h.x, v, db.flow.credentials, now)
      else (r.CodeEntry? || r == Refused) && (r.CodeEntry? <==> cfg.mailer && QuotaLeft(db.otp, address, now))
  }

  lemma JudgedAlike(cfg: Config, r: Response, h: Hand, v: View, a: Db, b: Db, now: int)
    requires h.Asserting? && a.otp == b.otp
    requires a.flow.accepted == b.flow.accepted && a.flow.credentials == b.flow.credentials
    ensures Judged(cfg, r, h, v, a, now) == Judged(cfg, r, h, v, b, now)
  {
  }

  // The database once a callback has kept the credential of a flow that asks for refresh tokens.
  function CalledBack(db: Db, token: string, connector: string, exchanged: Option<Credential>, now: int): Db
    requires token in db.flow.states
  {
    var s := db.flow.states[token];
    if s.refreshMode == "" then db
    else
      db.(flow := db.flow.(credentials := db.flow.credentials[token :=
        FlowCredential(s.clientId, connector, TemporaryBox(token, s.clientId, connector, exchanged), now + STATE_TTL)]))
  }

  // Several addresses lead to a choice, as long as the state may be kept for it, and one address to
  // what becomes of it.
  predicate Resolved(
    cfg: Config, r: Response, token: string, connector: string, identity: Identified, hash: Digest, v: View, db: Db,
    now: int, lag: nat)
  {
    if identity.Nobody? || Blank(identity.subject) || |identity.emails| == 0 || token !in db.flow.states then
      r == Refused
    else
      var s := db.flow.states[token];
      if |identity.emails| > 1 then
        && (r.Identities? || r == Refused)
        && (r.Identities? <==> now < s.expiresAt && now < s.createdAt + STATE_TTL && hash !in db.flow.selections)
      else if !Open(db.flow, token, now + lag) then r == Refused
      else
        Judged(
          cfg, r, Asserting(Decoded(token, s), connector, identity.subject, identity.emails[0]), v, db, now)
  }

  lemma SavedBack(db: Db, token: string, connector: string, exchanged: Option<Credential>, now: int)
    ensures token in db.flow.states ==>
      var s := db.flow.states[token];
      var box := TemporaryBox(token, s.clientId, connector, exchanged);
      var saved := SaveFlowCredential(
        db.flow, "", token, FlowCredential(s.clientId, connector, box, now + STATE_TTL));
      CalledBack(db, token, connector, exchanged, now)
        == if s.refreshMode != "" then db.(flow := saved) else db
  {
  }

  // An unexpired selection offers an address under this number.
  predicate Pickable(f: Flow, hash: Digest, index: nat, now: int) {
    hash in f.selections && now < f.selections[hash].expiresAt && index < |f.selections[hash].emails|
  }

  lemma QuotaExact(o: Otp, id: string, email: string, mac: Mac, flow: OtpFlow, now: int, ttl: int)
    ensures CreateOtp(o, id, email, mac, flow, now, ttl).1.Ok? <==> id !in o.challenges && QuotaLeft(o, email, now)
  {
    assert Recent(o.sends, email, now - HOUR)
      == set r | r in o.sends && o.sends[r].email == email && now - HOUR < o.sends[r].at;
  }

  lemma ResentExact(o: Otp, id: string, mac: Mac, now: int, ttl: int)
    ensures ResendOtp(o, id, mac, now, ttl).1.Ok? <==>
      && id in o.challenges && now < o.challenges[id].expiresAt && o.challenges[id].sentAt + MINUTE <= now
      && QuotaLeft(o, o.challenges[id].email, now)
  {
    if id in o.challenges {
      var email := o.challenges[id].email;
      assert Recent(o.sends, email, now - HOUR)
        == set r | r in o.sends && o.sends[r].email == email && now - HOUR < o.sends[r].at;
    }
    hide Oldest;
  }

  lemma MatchesExactly(o: Otp, id: string, guess: Mac, now: int)
    ensures var r := ConsumeOtp(o, id, guess, now).1;
      (r.Ok? <==> Matches(o, id, guess, now)) && (r.Ok? ==> r.value == o.challenges[id].flow)
  {
  }

  lemma AllowedExactly(x: Context, view: View)
    ensures Objection(x, view).None? <==> MayHaveCode(x, view)
    ensures Objection(x, view) == Some(Grants) <==> x.purpose == "manage_grants"
    ensures MayHaveCode(x, view) ==> x.purpose != "manage_grants"
    ensures Objection(x, view).Some? ==> Objection(x, view).value == Grants || Objection(x, view).value == Refused
  {
  }

  lemma CredentialExactly(
    cfg: Config, x: Context, f: Flow, now: int, found: bool, credential: Option<Credential>)
    requires credential.Some? ==> found && x.refreshMode != "" && x.flowId != ""
    requires x.refreshMode == "" || x.flowId == "" ==> found && credential.None?
    requires x.refreshMode != "" && x.flowId != "" ==>
      var loaded := LoadFlowCredential(f, x.flowId, x.clientId, x.connectorId, now);
      if loaded.Ok? then
        && credential == DecryptTemporaryCredential(x.flowId, x.clientId, x.connectorId, loaded.value)
        && (found <==> credential.Some?)
      else found && credential.None?
    ensures found ==> credential == KeptBy(x, f.credentials, now)
    ensures found && !CredentialMissing(cfg, x, credential.Some?) <==> CredentialFits(cfg, x, f.credentials, now)
  {
  }

  lemma Shown(o: Otp, id: string, guess: Mac, now: int)
    ensures Matches(o, id, guess, now) ==> OtpFlowOf(o, id, now).Ok?
  {
  }

  lemma FreshCode(cfg: Config, m: Machine, code: string)
    requires Inv(cfg, m) && code !in m.issued
    ensures forall c ::
      SaveAuthCode(m.db.flow, code, c) == (m.db.flow.(codes := m.db.flow.codes[code := c]), Ok(()))
  {
    hide Tagged, Single, ContentsFit, OriginsFit, VisitsFit, IdentitiesFit;
  }

  lemma OpenTaken(db: Db, token: string, now: int, lag: nat)
    ensures var (flow, r) := GetAndDeleteState(db.flow, token, now, now + lag);
      && (r.Ok? <==> Open(db.flow, token, now + lag))
      && (r.Ok? ==> r.value == db.flow.states[token] && db.(flow := flow) == WithoutState(db, token))
  {
  }

  lemma FreshState(cfg: Config, m: Machine, token: string, s: OAuthState)
    requires Inv(cfg, m) && token !in m.log.used
    ensures token !in m.db.flow.states
    ensures var (flow, r) := SaveState(m.db.flow, token, s);
      r.Ok? && m.db.(flow := flow) == WithState(m.db, token, s)
  {
    InvHolders(cfg, m);
    hide Inv, Fits;
    if token in m.db.flow.states {
      assert Present(m, StateRow(token));
      Known(cfg, m, StateRow(token));
    }
  }

  lemma PushedThere(f: Flow, uri: string, clientId: string, now: int)
    ensures var r := ConsumePushedRequest(f, uri, clientId, now).1;
      && (r.Ok? <==> uri in f.pushed && f.pushed[uri].clientId == clientId && now < f.pushed[uri].expiresAt)
      && (r.Ok? ==> r.value == f.pushed[uri])
  {
  }

  // What complete finds against a flow before it looks for a credential.
  function Objection(x: Context, view: View): (r: Option<Response>)
    ensures r.Some? ==> r.value.Grants? || r.value.Refused?
  {
    if x.purpose == "manage_grants" then Some(Grants)
    else if !view.known || !view.redirectAllowed then Some(Refused)
    else if !SatisfiesPolicy(x, view) || (x.refreshMode == "offline" && !x.offlineConsent) then Some(Refused)
    else if !view.userAllowed then Some(Refused)
    else None
  }

  // Email connectors keep no credential, and all others need one for a refresh token.
  predicate CredentialMissing(cfg: Config, x: Context, backed: bool) {
    x.refreshMode != "" && (x.connectorId !in cfg.kinds || backed == (cfg.kinds[x.connectorId] == "email"))
  }

  lemma MayIssueThen(cfg: Config, x: Context, view: View, backed: bool)
    requires Objection(x, view).None? && !CredentialMissing(cfg, x, backed)
    ensures MayIssue(cfg, x, view.(credentialBacked := backed))
  {
  }

  lemma NothingAnswered(m: Machine, id: nat)
    ensures Answers(m, Refused, id) && Answers(m, Grants, id) && Answers(m, Identities, id)
    ensures forall x, view :: Objection(x, view).Some? ==> Answers(m, Objection(x, view).value, id)
  {
  }

  lemma StillHolds(a: Machine, b: Machine, w: nat, id: nat)
    requires Untouched(a, b, w) && Holds(a, Worker(w), id)
    ensures Holds(b, Worker(w), id) && (w in b.hands <==> w in a.hands) && (w in a.hands ==> b.hands[w] == a.hands[w])
    ensures w in b.visits <==> w in a.visits
  {
  }

  // strings.TrimSpace leaves nothing, for ASCII white space.
  predicate Blank(s: string) {
    forall i :: 0 <= i < |s| ==> s[i] == ' ' || '\t' <= s[i] <= '\r'
  }

  // The holder stands for the request.
  predicate Holds(m: Machine, h: Holder, id: nat) {
    h in m.tags && m.tags[h] == id
  }

  // What a response hands to the browser stands for the request it serves; a code goes to the
  // redirect URI of the request, with the state it came with.
  predicate Answers(m: Machine, r: Response, id: nat) {
    match r
    case Consent(token) => Holds(m, StateRow(token), id)
    case Selector(token) => Holds(m, StateRow(token), id)
    case Upstream(token) => Holds(m, StateRow(token), id)
    case CodeEntry(challenge) => Holds(m, ChallengeRow(challenge), id)
    case Redirect(uri, code, state) =>
      && Holds(m, Issued(code), id) && id in m.log.requests && m.log.requests[id].Running?
      && m.log.requests[id].origin.redirectUri == uri && m.log.requests[id].origin.oidcState == state
    case _ => true
  }

  lemma ChallengeOutcome(cfg: Config, m: Machine, w: nat, id: string, mac: Mac, now: int, ttl: int)
    requires Tagged(m) && Enabled(m, FlowStep.Challenge(w, id, mac, now, ttl))
    ensures var n, h := Next(cfg, m, FlowStep.Challenge(w, id, mac, now, ttl)), m.hands[w];
      var (otp, r) := CreateOtp(m.db.otp, id, h.address, mac, Challenged(h.x, h.connectorId, h.subject, h.address), now,
        ttl);
      && n.db == m.db.(otp := if r.Err? then m.db.otp else otp) && n.hands == m.hands - {w} && n.visits == m.visits
      && (r.Err? ==> otp == m.db.otp)
      && Worker(w) in m.tags && (!r.Err? ==> Holds(n, ChallengeRow(id), m.tags[Worker(w)]))
  {
    assert Present(m, Worker(w));
    hide Tagged, Challenged, Recent, Present, DoPush, DoBegin, DoBeginPushed, DoPark, DoPeek, DoOffer, DoPick, DoTake,
      DoDecide, DoAccept;
    hide DoComplete, DoResend, DoVerify, DoProve, DoRedeem, DoCrash, DoSweep;
  }

  lemma HandTag(cfg: Config, m: Machine, w: nat)
    requires Inv(cfg, m) && w in m.hands
    ensures Worker(w) in m.tags && Fits(m.log, m.hands[w].x, m.tags[Worker(w)])
  {
    InvHolders(cfg, m);
    Known(cfg, m, Worker(w));
    hide Inv, Holders, Successor, Tagged, Fits;
  }

  lemma CompleteOutcome(cfg: Config, m: Machine, w: nat, code: string, v: View, now: int)
    requires Tagged(m) && Enabled(m, Complete(w, code, v, now)) && MayIssue(cfg, m.hands[w].x, v)
    requires Worker(w) in m.tags && Fits(m.log, m.hands[w].x, m.tags[Worker(w)])
    ensures var n, h := Next(cfg, m, Complete(w, code, v, now)), m.hands[w];
      var c := CodeFor(h.x, h.subject, h.address, h.verified, now);
      var (flow, r) := SaveAuthCode(m.db.flow, code, c);
      && n.db == m.db.(flow := flow) && n.hands == m.hands - {w} && n.visits == m.visits
      && (!r.Err? ==>
            && code in n.issued && n.issued[code] == c
            && Answers(n, Redirect(h.x.redirectUri, code, h.x.oidcState), m.tags[Worker(w)]))
  {
    hide Tagged, CodeFor, MayIssue, DoPush, DoBegin, DoBeginPushed, DoPark, DoPeek, DoOffer, DoPick, DoTake, DoDecide,
      DoAccept, DoChallenge;
    hide DoResend, DoVerify, DoProve, DoRedeem, DoCrash, DoSweep;
  }

  lemma VerifyOutcome(cfg: Config, m: Machine, w: nat, id: string, guess: Mac, now: int)
    requires Tagged(m) && Enabled(m, Verify(w, id, guess, now))
    ensures var n := Next(cfg, m, Verify(w, id, guess, now));
      var (otp, r) := ConsumeOtp(m.db.otp, id, guess, now);
      && n.db == m.db.(otp := otp) && n.visits == m.visits && (r.Err? ==> n.hands == m.hands)
      && (!r.Err? ==>
            && ChallengeRow(id) in m.tags && Holds(n, Worker(w), m.tags[ChallengeRow(id)])
            && n.hands == m.hands[w := Proving(Resumed(r.value), r.value.connectorId, r.value.subject, r.value.email)])
  {
    if id in m.db.otp.challenges {
      assert Present(m, ChallengeRow(id));
    }
    hide Tagged, Resumed, DoPush, DoBegin, DoBeginPushed, DoPark, DoPeek, DoOffer, DoPick, DoTake, DoDecide, DoAccept,
      DoChallenge;
    hide DoComplete, DoResend, DoProve, DoRedeem, DoCrash, DoSweep, Present;
  }

  lemma PushedOutcome(cfg: Config, m: Machine, w: nat, uri: string, clientId: string, now: int, v: View)
    requires Tagged(m) && Enabled(m, BeginPushed(w, uri, clientId, now, v))
    ensures var n := Next(cfg, m, BeginPushed(w, uri, clientId, now, v));
      var (flow, r) := ConsumePushedRequest(m.db.flow, uri, clientId, now);
      && n.db == m.db.(flow := flow) && n.visits == m.visits && (r.Err? ==> n.hands == m.hands)
      && (!r.Err? ==>
            var o := PushedOrigin(r.value, v, now);
            if o.Some? then
              && PushedRow(uri) in m.tags && Holds(n, Worker(w), m.tags[PushedRow(uri)])
              && n.hands == m.hands[w := Parking(Opening(o.value, true))]
            else n.hands == m.hands)
  {
    if uri in m.db.flow.pushed {
      assert Present(m, PushedRow(uri));
    }
    hide Tagged, Opening, PushedOrigin, Present, DoPush, DoBegin, DoPark, DoPeek, DoOffer, DoPick, DoTake, DoDecide,
      DoAccept;
    hide DoChallenge, DoComplete, DoResend, DoVerify, DoProve, DoRedeem, DoCrash, DoSweep;
  }

  lemma StillIdle(a: Machine, b: Machine, w: nat)
    requires Untouched(a, b, w)
    ensures (w in b.hands <==> w in a.hands) && (w in b.visits <==> w in a.visits)
  {
  }

  lemma StillVisits(a: Machine, b: Machine, w: nat)
    requires Untouched(a, b, w) && w in a.visits
    ensures (w in b.hands <==> w in a.hands) && w in b.visits && b.visits[w] == a.visits[w]
  {
  }

  lemma SelectorAnswers(m: Machine, id: nat)
    ensures forall token :: Holds(m, StateRow(token), id) ==>
      Answers(m, Selector(token), id) && Answers(m, Consent(token), id)
  {
  }

  // It stood for the request at some time of the run.
  ghost predicate Stood(trace: seq<Machine>, h: Holder, id: nat) {
    exists i :: 0 <= i < |trace| && Holds(trace[i], h, id)
  }

  // What the request asked for, as recorded at some time of the run.
  ghost predicate AskedFor(trace: seq<Machine>, id: nat, r: Request) {
    exists i :: 0 <= i < |trace| && id in trace[i].log.requests && trace[i].log.requests[id] == r
  }

  lemma AskedStays(a: seq<Machine>, b: seq<Machine>, id: nat, r: Request)
    requires AskedFor(a, id, r) && a <= b
    ensures AskedFor(b, id, r)
  {
    var i :| 0 <= i < |a| && id in a[i].log.requests && a[i].log.requests[id] == r;
    assert b[i] == a[i];
  }

  lemma StoodStays(a: seq<Machine>, b: seq<Machine>, h: Holder, id: nat)
    requires Stood(a, h, id) && a <= b
    ensures Stood(b, h, id)
  {
    var i :| 0 <= i < |a| && Holds(a[i], h, id);
    assert Holds(b[i], h, id);
  }

  lemma MayTake(a: Machine, m: Machine, w: nat, token: string, page: Page, now: int, checked: int)
    requires Untouched(a, m, w) && w !in a.hands
    requires page.CallbackPage? || page.IdentityPage? ==> w in a.visits && a.visits[w].token == token
    ensures Enabled(m, Take(w, token, page, now, checked))
  {
  }

  lemma WasStanding(trace: seq<Machine>, m: Machine, h: Holder, id: nat)
    requires m in trace && Holds(m, h, id)
    ensures Stood(trace, h, id)
  {
    var i :| 0 <= i < |trace| && trace[i] == m;
    assert Holds(trace[i], h, id);
  }

  // The user is asked to choose: the state is still there and the selection points to it.
  predicate Offered(f: Flow, hash: Digest, token: string) {
    token in f.states && hash in f.selections && f.selections[hash].state == token
  }

  lemma OfferLeaves(f: Flow, hash: Digest, v: Visit, subject: string, emails: seq<Email>, now: int)
    requires v.CallingBack?
    ensures var (f2, r) :=
      CreateIdentitySelection(f, hash, v.token, v.connectorId, subject, emails, STATE_TTL, SELECTION_TTL, now);
      && (r.Ok? ==> Offered(f2, hash, v.token))
      && (r.Ok? <==>
            && v.token in f.states && now < f.states[v.token].expiresAt && now < f.states[v.token].createdAt + STATE_TTL
            && hash !in f.selections)
  {
  }

  // A selection that was there at some time of the run led to the state.
  ghost predicate Chosen(trace: seq<Machine>, hash: Digest, token: string) {
    exists i :: 0 <= i < |trace| && hash in trace[i].db.flow.selections
      && trace[i].db.flow.selections[hash].state == token
  }

  lemma WasChosen(trace: seq<Machine>, m: Machine, hash: Digest, token: string)
    requires m in trace && hash in m.db.flow.selections && m.db.flow.selections[hash].state == token
    ensures Chosen(trace, hash, token)
  {
    var i :| 0 <= i < |trace| && trace[i] == m;
  }

  lemma ChosenStays(a: seq<Machine>, b: seq<Machine>, hash: Digest, token: string)
    requires Chosen(a, hash, token) && a <= b
    ensures Chosen(b, hash, token)
  {
    var i :| 0 <= i < |a| && hash in a[i].db.flow.selections && a[i].db.flow.selections[hash].state == token;
    assert b[i] == a[i];
  }

  // Nothing usable is left under the token.
  predicate Gone(f: Flow, token: string, now: int) {
    token !in f.states || f.states[token].expiresAt < now
  }

  lemma TakeLeaves(f: Flow, token: string, now: int, checked: int)
    ensures var (f2, r) := GetAndDeleteState(f, token, now, checked);
      Gone(f2, token, now) && (r.Ok? ==> token !in f2.states)
  {
  }

  // At some time of the run, from a given one on, the token had never been handed out.
  ghost predicate Unused(trace: seq<Machine>, from: nat, token: string) {
    exists i :: from <= i < |trace| && token !in trace[i].log.used
  }

  lemma TakeStores(cfg: Config, m: Machine, w: nat, token: string, page: Page, now: int, checked: int)
    requires Tagged(m)
    ensures DoTake(cfg, m, w, token, page, now, checked).db
      == m.db.(flow := GetAndDeleteState(m.db.flow, token, now, checked).0)
  {
    hide Tagged, Serve, Noted, Present;
  }

  lemma TakeOutcome(cfg: Config, m: Machine, w: nat, token: string, page: Page, now: int, checked: int)
    requires Tagged(m) && w !in m.hands
    ensures var n := DoTake(cfg, m, w, token, page, now, checked);
      var (flow, r) := GetAndDeleteState(m.db.flow, token, now, checked);
      var visit := if w in m.visits then Some(m.visits[w]) else None;
      && n.db == m.db.(flow := flow)
      && (r.Err? ==> n.hands == m.hands && (w !in m.visits ==> w !in n.visits))
      && (r.Ok? ==>
            && StateRow(token) in m.tags && w !in n.visits
            && var h := Serve(cfg, page, Decoded(token, r.value), visit);
               if h.Some? then n.hands == m.hands[w := h.value] && Holds(n, Worker(w), m.tags[StateRow(token)])
                 else n.hands == m.hands)
  {
    var (flow, r) := GetAndDeleteState(m.db.flow, token, now, checked);
    if token in m.db.flow.states && token !in flow.states {
      assert Present(m, StateRow(token));
    }
    hide Tagged, Serve, Noted, Present;
  }

  lemma SavedUnder(f: Flow, token: string, s: OAuthState)
    ensures var (f2, r) := SaveState(f, token, s); r.Ok? ==> token in f2.states && f2.states[token] == s
  {
  }

  lemma ParkOutcome(m: Machine, w: nat, token: string, now: int)
    requires Tagged(m) && w in m.hands && m.hands[w].Parking?
    ensures var n := DoPark(m, w, token, now);
      var (flow, r) := SaveState(m.db.flow, token, Stored(m.hands[w].x, now));
      && n.db == m.db.(flow := flow) && n.hands == m.hands - {w} && n.visits == m.visits
      && Worker(w) in m.tags && (!r.Err? ==> Holds(n, StateRow(token), m.tags[Worker(w)]))
  {
    assert Present(m, Worker(w));
    hide Tagged, Stored;
  }

  lemma RunGrows(cfg: Config, trace: seq<Machine>, steps: seq<FlowStep>, s: FlowStep, n: Machine)
    requires Run(cfg, trace, steps) && Tagged(trace[|steps|]) && Enabled(trace[|steps|], s)
      && n == Next(cfg, trace[|steps|], s)
    ensures Run(cfg, trace + [n], steps + [s])
  {
    hide Next, Enabled, Tagged;
  }

  lemma RunLength(cfg: Config, trace: seq<Machine>, steps: seq<FlowStep>)
    requires Run(cfg, trace, steps)
    ensures |trace| == |steps| + 1
  {
  }

  lemma ResentNext(cfg: Config, m: Machine, n: Machine, s: FlowStep)
    requires s.Resend? && Tagged(m) && Enabled(m, s) && n == DoResend(m, s.id, s.mac, s.now, s.ttl)
    ensures n == Next(cfg, m, s)
  {
    hide DoResend;
  }

  lemma SameMachine(m: Machine, w: nat)
    ensures Untouched(m, m, w) && Lineage(m, m)
  {
  }

  lemma UntouchedJoins(a: Machine, b: Machine, c: Machine, w: nat)
    requires Untouched(a, b, w) && Untouched(b, c, w)
    ensures Untouched(a, c, w)
  {
  }
}
