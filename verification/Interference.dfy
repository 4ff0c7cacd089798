// What the rest of the system does while one refresh request is between two storage calls:
// other requests and cleanup commit transactions, time passes, storage fails, the caller gives up.
module Interference {
  import opened Common
  import opened RefreshFamilies
  import opened StateStore
  import opened RefreshTheorems
  import opened RefreshReplay

  datatype Turn = Turn(elapsed: nat, steps: seq<Step>, fails: bool, interrupted: bool)

  // The time others will take.
  function Lag(turns: seq<Turn>): nat {
    if |turns| == 0 then 0 else turns[0].elapsed + Lag(turns[1..])
  }

  const IDLE := Turn(0, [], false, false)

  class Environment {
    var turns: seq<Turn>
    var now: int

    constructor (turns: seq<Turn>, now: int)
      ensures this.turns == turns && this.now == now
    {
      this.turns, this.now := turns, now;
    }

    // One committed transaction of somebody else.
    method Perform(store: Store, s: Step)
      modifies store`grants, store`tokens, store`actions, store`history
      ensures store.Family() == Apply(old(store.Family()), s) && store.history == old(store.history) + [s]
    {
      match s
      case Create(sid, profile, credential, upstream, absolute, m, t) =>
        var _ := store.CreateRefreshGrant(sid, profile, credential, upstream, absolute, m, t);
      case Claim(m, clientId, t, ttl, id) =>
        var _ := store.ClaimRefresh(m, clientId, t, ttl, id);
      case Mark(sid, id, t) =>
        var _ := store.MarkUpstreamRefreshStarted(sid, id, t);
      case Release(sid, id) =>
        store.ReleaseRefreshClaim(sid, id);
      case Abort(sid, id) =>
        var _ := store.AbortUpstreamRefresh(sid, id);
      case Complete(current, replacement, sid, idleTtl, id, upstream, sealed, absolute, t) =>
        var _ := store.CompleteClaimedRefresh(current, replacement, sid, idleTtl, id, upstream, sealed, absolute, t);
      case Rotate(current, replacement, clientId, t) =>
        var _ := store.RotateRefreshToken(current, replacement, clientId, t);
      case Revoke(sid, clientId, reason, t) =>
        store.RevokeGrant(sid, clientId, reason, t);
      case RevokeToken(m, clientId, reason, t) =>
        store.RevokeRefreshToken(m, clientId, reason, t);
      case RevokeByCredential(c, clientId, proofJkt, reason, t) =>
        store.RevokeCredential(c, clientId, proofJkt, reason, t);
      case SelfRevoke(sid, email, t) =>
        store.SelfRevoke(sid, email, t);
      case Cleanup(sids, t) =>
        store.CleanUpGrants(sids, t);
    }

    // Let the others take their next turn of at least the given length.
    method Yield(store: Store, atLeast: nat) returns (turn: Turn)
      modifies this, store`grants, store`tokens, store`actions, store`history
      ensures old(turns) == [] ==> turns == [] && turn == IDLE
      ensures old(turns) != [] ==> turns == old(turns)[1..] && turn == old(turns)[0]
      ensures now == old(now) + atLeast + turn.elapsed && now + Lag(turns) == old(now) + Lag(old(turns)) + atLeast
      ensures store.Family() == After(old(store.Family()), turn.steps, |turn.steps|)
      ensures store.history == old(store.history) + turn.steps
    {
      turn := IDLE;
      if turns != [] {
        turn := turns[0];
        turns := turns[1..];
      }
      now := now + atLeast + turn.elapsed;
      for i := 0 to |turn.steps|
        invariant store.Family() == After(old(store.Family()), turn.steps, i)
        invariant store.history == old(store.history) + turn.steps[..i]
        invariant now == old(now) + atLeast + turn.elapsed
        invariant turns == if old(turns) == [] then [] else old(turns)[1..]
      {
        Perform(store, turn.steps[i]);
        assert turn.steps[..i + 1] == turn.steps[..i] + [turn.steps[i]];
      }
    }
  }

  ghost predicate NoFailures(turns: seq<Turn>) {
    forall i :: 0 <= i < |turns| ==> !turns[i].fails
  }

  ghost predicate Undisturbed(turns: seq<Turn>) {
    forall i :: 0 <= i < |turns| ==> turns[i].steps == []
  }

  // ---- What other workers cannot do: use this worker's claim id, its family id or its handle ----

  predicate Foreign(s: Step, sid: string, id: string, h: Digest) {
    match s
    case Create(other, _, _, _, _, m, _) => other != sid && m.handleHash != h
    case Claim(_, _, _, _, other) => other != id
    case Mark(_, other, _) => other != id
    case Release(_, other) => other != id
    case Abort(_, other) => other != id
    case Complete(_, r, _, _, other, _, _, _, _) => other != id && r.handleHash != h
    case Rotate(_, r, _, _) => r.handleHash != h
    case _ => true
  }

  ghost predicate ForeignTurns(turns: seq<Turn>, sid: string, id: string, h: Digest) {
    forall i, j :: 0 <= i < |turns| && 0 <= j < |turns[i].steps| ==> Foreign(turns[i].steps[j], sid, id, h)
  }

  // ---- What this worker can rely on meanwhile -----------------------------------------------------

  // bound is the absolute expiry the family had when the request started, absolute the one read
  // when the claim was taken, and stored the upstream credential sealed for the presented token.
  datatype Context = Context(
    sid: string, id: string, h: Digest, profile: Profile, bound: int, absolute: int, stored: Option<Sealed>)

  // Nobody holds the claim id yet.
  ghost predicate Unclaimed(f: Families, c: Context) {
    && Inv(f)
    && (forall sid :: !HoldsClaim(f, sid, c.id))
    && (c.h in f.tokens ==> f.tokens[c.h].sid == c.sid)
    && (c.sid in f.grants ==> f.grants[c.sid].profile == c.profile && f.grants[c.sid].absoluteExpiry <= c.bound)
    && (Live(f, c.h) ==> f.grants[c.sid].credential == c.stored)
  }

  // The claim was taken: it is not marked, or it fences the family; and while the presented
  // token is unconsumed the family's absolute expiry is the one this worker read, and its stored
  // credential the one it started with.
  ghost predicate Claiming(f: Families, c: Context, marked: bool) {
    && Inv(f)
    && (if marked then Fenced(f, c.sid, c.id) else HoldsClaim(f, c.sid, c.id) ==> !f.grants[c.sid].started)
    && (c.h in f.tokens ==> f.tokens[c.h].sid == c.sid)
    && (c.sid in f.grants ==> f.grants[c.sid].profile == c.profile && f.grants[c.sid].absoluteExpiry <= c.bound)
    && (Live(f, c.h) ==> f.grants[c.sid].absoluteExpiry == c.absolute && f.grants[c.sid].credential == c.stored)
  }

  lemma TokenRows(f: Families, s: Step, h: Digest)
    requires !Inserted(f, s, h)
    ensures h in Apply(f, s).tokens ==> h in f.tokens && Apply(f, s).tokens[h].sid == f.tokens[h].sid
  {
    if Quiet(s) {
      hide Apply;
      QuietStep(f, s);
    } else if s.Complete? || s.Rotate? {
      RotatingStep(f, s);
    }
  }

  lemma ForeignInserts(f: Families, s: Step, c: Context)
    requires Foreign(s, c.sid, c.id, c.h)
    ensures !Inserted(f, s, c.h) && !Created(f, s, c.sid)
  {
  }

  lemma ForeignProfile(f: Families, s: Step, c: Context)
    requires Foreign(s, c.sid, c.id, c.h)
    ensures c.sid in Apply(f, s).grants ==>
      && c.sid in f.grants && Apply(f, s).grants[c.sid].profile == f.grants[c.sid].profile
      && Apply(f, s).grants[c.sid].absoluteExpiry <= f.grants[c.sid].absoluteExpiry
  {
    ForeignInserts(f, s, c);
    GrantAppears(f, s, c.sid);
    hide Apply, Created;
    if c.sid in Apply(f, s).grants {
      AbsoluteStep(f, s, c.sid);
    }
  }

  // A step that changes the family's absolute expiry or credential consumes its live token.
  lemma ForeignAbsolute(f: Families, s: Step, c: Context)
    requires Inv(f) && Foreign(s, c.sid, c.id, c.h) && (c.h in f.tokens ==> f.tokens[c.h].sid == c.sid)
    ensures Live(Apply(f, s), c.h) ==> Live(f, c.h) && c.sid in f.grants && c.sid in Apply(f, s).grants
    ensures Live(Apply(f, s), c.h) ==>
      && Apply(f, s).grants[c.sid].absoluteExpiry == f.grants[c.sid].absoluteExpiry
      && Apply(f, s).grants[c.sid].credential == f.grants[c.sid].credential
  {
    if Quiet(s) {
      hide Apply;
      QuietStep(f, s);
    } else if s.Complete? || s.Rotate? {
      RotatingStep(f, s);
      hide Apply, CompleteClaimedRefresh, RotateRefreshToken;
    }
  }

  lemma ForeignClaim(f: Families, s: Step, c: Context, sid: string)
    requires Foreign(s, c.sid, c.id, c.h) && HoldsClaim(Apply(f, s), sid, c.id)
    ensures HoldsClaim(f, sid, c.id) && Apply(f, s).grants[sid].started == f.grants[sid].started
  {
  }

  lemma UnclaimedStep(f: Families, s: Step, c: Context)
    requires Unclaimed(f, c) && Foreign(s, c.sid, c.id, c.h)
    ensures Unclaimed(Apply(f, s), c)
  {
    hide Apply, Inserted, Created;
    InvStep(f, s);
    forall sid ensures !HoldsClaim(Apply(f, s), sid, c.id) {
      if HoldsClaim(Apply(f, s), sid, c.id) {
        ForeignClaim(f, s, c, sid);
      }
    }
    ForeignInserts(f, s, c);
    TokenRows(f, s, c.h);
    ForeignProfile(f, s, c);
    ForeignAbsolute(f, s, c);
  }

  lemma ForeignFence(f: Families, s: Step, c: Context)
    requires Inv(f) && Fenced(f, c.sid, c.id) && Foreign(s, c.sid, c.id, c.h)
    ensures Fenced(Apply(f, s), c.sid, c.id)
  {
    assert !EndsFence(f, s, c.sid);
    hide Apply, EndsFence;
    FencedStep(f, s, c.sid, c.id);
  }

  lemma ClaimingStep(f: Families, s: Step, c: Context, marked: bool)
    requires Claiming(f, c, marked) && Foreign(s, c.sid, c.id, c.h)
    ensures Claiming(Apply(f, s), c, marked)
  {
    hide Apply, Inserted, Created;
    InvStep(f, s);
    if marked {
      ForeignFence(f, s, c);
    } else if HoldsClaim(Apply(f, s), c.sid, c.id) {
      ForeignClaim(f, s, c, c.sid);
    }
    ForeignInserts(f, s, c);
    TokenRows(f, s, c.h);
    ForeignProfile(f, s, c);
    ForeignAbsolute(f, s, c);
  }

  // Other workers' steps are recorded, and none of them marks or aborts under this claim.
  lemma {:induction false} ForeignTally(f: Families, run: seq<Step>, steps: seq<Step>, n: nat, c: Context)
    requires ForeignSteps(steps, c) && n <= |steps|
    ensures After(f, run + steps, |run| + n) == After(After(f, run, |run|), steps, n)
    ensures TallyOf(f, run + steps, c.id, |run| + n) == TallyOf(f, run, c.id, |run|)
  {
    hide Apply, MarkedUnder, AbortedUnder;
    if n == 0 {
      PrefixKept(f, run, run + steps, c.id, |run|);
    } else {
      ForeignTally(f, run, steps, n - 1, c);
      ForeignCounts(After(f, run + steps, |run| + n - 1), steps[n - 1], c);
    }
  }

  lemma ForeignCounts(f: Families, s: Step, c: Context)
    requires Foreign(s, c.sid, c.id, c.h)
    ensures !MarkedUnder(f, s, c.id) && !AbortedUnder(f, s, c.id)
  {
  }

  ghost predicate ForeignSteps(steps: seq<Step>, c: Context) {
    forall j :: 0 <= j < |steps| ==> Foreign(steps[j], c.sid, c.id, c.h)
  }

  lemma {:induction false} UnclaimedRun(f: Families, steps: seq<Step>, n: nat, c: Context)
    requires Unclaimed(f, c) && ForeignSteps(steps, c) && n <= |steps|
    ensures Unclaimed(After(f, steps, n), c)
  {
    hide Apply, Unclaimed, Foreign;
    if n > 0 {
      UnclaimedRun(f, steps, n - 1, c);
      UnclaimedStep(After(f, steps, n - 1), steps[n - 1], c);
    }
  }

  lemma {:induction false} ClaimingRun(f: Families, steps: seq<Step>, n: nat, c: Context, marked: bool)
    requires Claiming(f, c, marked) && ForeignSteps(steps, c) && n <= |steps|
    ensures Claiming(After(f, steps, n), c, marked)
  {
    hide Apply, Claiming, Foreign;
    if n > 0 {
      ClaimingRun(f, steps, n - 1, c, marked);
      ClaimingStep(After(f, steps, n - 1), steps[n - 1], c, marked);
    }
  }

  // ---- A replayed token, while its family is still there -----------------------------------------

  ghost predicate ReplaySeen(f: Families, c: Context, m: RefreshMaterial) {
    && (c.h in f.tokens ==> f.tokens[c.h].sid == c.sid)
    && (c.sid in f.grants ==>
          Consumed(f, c.h) && f.tokens[c.h].tokenHash == m.tokenHash && f.grants[c.sid].profile == c.profile)
  }

  lemma ReplayRow(f: Families, s: Step, c: Context)
    requires Foreign(s, c.sid, c.id, c.h) && c.sid in Apply(f, s).grants && Consumed(f, c.h)
      && f.tokens[c.h].sid == c.sid
    ensures c.h in Apply(f, s).tokens && Apply(f, s).tokens[c.h] == f.tokens[c.h]
  {
    ForeignInserts(f, s, c);
    GrantAppears(f, s, c.sid);
    if s.Complete? || s.Rotate? {
      RotatingStep(f, s);
    } else {
      KeepsTokens(f, s, c.sid);
    }
  }

  lemma ReplayStep(f: Families, s: Step, c: Context, m: RefreshMaterial)
    requires ReplaySeen(f, c, m) && Foreign(s, c.sid, c.id, c.h)
    ensures ReplaySeen(Apply(f, s), c, m)
  {
    hide Apply, Inserted, Created;
    ForeignProfile(f, s, c);
    ForeignInserts(f, s, c);
    TokenRows(f, s, c.h);
    if c.sid in Apply(f, s).grants {
      ReplayRow(f, s, c);
    }
  }

  lemma {:induction false} ReplayRun(f: Families, steps: seq<Step>, n: nat, c: Context, m: RefreshMaterial)
    requires ReplaySeen(f, c, m) && ForeignSteps(steps, c) && n <= |steps|
    ensures ReplaySeen(After(f, steps, n), c, m)
  {
    hide Apply, ReplaySeen, Foreign;
    if n > 0 {
      ReplayRun(f, steps, n - 1, c, m);
      ReplayStep(After(f, steps, n - 1), steps[n - 1], c, m);
    }
  }
}
