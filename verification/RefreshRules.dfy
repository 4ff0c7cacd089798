// The rules of refresh families, as a reader of the tables would put them: who gets a new token and
// how long it lives, how long a claim runs, and what a family's row says afterwards.
module RefreshRules {
  import opened Common
  import opened RefreshFamilies
  import opened RefreshTheorems
  import opened RefreshReplay

  // The material is a token's own, the token is unused and its family lives at that time.
  predicate Good(f: Families, m: RefreshMaterial, now: int) {
    && m.handleHash in f.tokens && f.tokens[m.handleHash].sid in f.grants
    && var t := f.tokens[m.handleHash];
       var g := f.grants[t.sid];
    && t.tokenHash == m.tokenHash && t.consumedAt == None && g.revoked == None
    && now < t.expiresAt && now < g.idleExpiry && now < g.absoluteExpiry
  }

  // The step presents the token in a way that entitles to a new one: for the right client, or by
  // the holder of a claim that still runs.
  predicate Entitled(f: Families, s: Step) {
    && (s.Rotate? || s.Complete?) && Good(f, s.current, s.now) && s.replacement.handleHash !in f.tokens
    && var sid := f.tokens[s.current.handleHash].sid;
       var g := f.grants[sid];
    && (s.Rotate? ==> g.profile.clientId == s.clientId)
    && (s.Complete? ==> s.sid == sid && g.claim.Some? && g.claim.value.id == s.id && s.now < g.claim.value.expiresAt)
  }

  // The old token is spent for the new one, which lives for the idle time from now on, as long as
  // the family does; only a completion touches credential, upstream login and absolute expiry.
  predicate Succeeded(f: Families, s: Step, f2: Families)
    requires Entitled(f, s)
  {
    var h, n := s.current.handleHash, s.replacement.handleHash;
    var sid := f.tokens[h].sid;
    var g := f.grants[sid];
    && sid in f2.grants && f2.grants.Keys == f.grants.Keys
    && var g2 := f2.grants[sid];
       var idle := if s.Rotate? then g.profile.idleTtl else s.idleTtl;
    && f2.tokens == f.tokens[h := f.tokens[h].(consumedAt := Some(s.now), replacement := Some(s.replacement.tokenHash))]
                    [n := Token(s.replacement.tokenHash, sid, s.now, Min(s.now + idle, g2.absoluteExpiry), None, None)]
    && g2.idleExpiry == Min(s.now + idle, g2.absoluteExpiry) && g2.lastUsed == s.now
    && g2.profile == g.profile && g2.revoked == None
    && (s.Rotate? ==>
          && g2.credential == g.credential && g2.upstream == g.upstream && g2.absoluteExpiry == g.absoluteExpiry
          && g2.claim == g.claim && g2.started == g.started)
    && (s.Complete? ==>
          && g2.credential == Some(s.sealed) && g2.upstream == s.upstream
          && g2.absoluteExpiry == Min(s.absoluteExpiry, g.absoluteExpiry) && g2.claim == None && !g2.started)
    && forall other :: other in f.grants && other != sid ==> f2.grants[other] == f.grants[other]
  }

  // A token is added to a family that was there exactly by a step entitled to it.
  lemma TokensAreEarned(f: Families, s: Step, h: Digest)
    ensures Entitled(f, s) ==> Succeeded(f, s, Apply(f, s))
    ensures h in Apply(f, s).tokens && h !in f.tokens ==>
      || (Entitled(f, s) && h == s.replacement.handleHash)
      || (s.Create? && s.sid !in f.grants && h == s.material.handleHash)
    ensures Rotated(f, s, h) <==> Entitled(f, s) && h == s.current.handleHash
  {
    if Quiet(s) {
      hide Apply;
      QuietStep(f, s);
    }
  }

  // Looking a token up finds it good exactly if it could be rotated then, and tells a spent one.
  lemma PreparedForRotation(f: Families, m: RefreshMaterial, next: RefreshMaterial, clientId: string, now: int)
    requires next.handleHash !in f.tokens
    ensures var r := PrepareRefresh(f, m, clientId, now);
      && (r.Ok? <==> Entitled(f, Rotate(m, next, clientId, now)))
      && (r.Ok? ==>
            && r.value.sid == f.tokens[m.handleHash].sid && r.value.grant == f.grants[r.value.sid]
            && r.value.newExpiry == Apply(f, Rotate(m, next, clientId, now)).tokens[next.handleHash].expiresAt)
      && (r == Err(RefreshReplay) <==>
            && m.handleHash in f.tokens && f.tokens[m.handleHash].sid in f.grants
            && f.tokens[m.handleHash].tokenHash == m.tokenHash && f.tokens[m.handleHash].consumedAt != None
            && f.grants[f.tokens[m.handleHash].sid].profile.clientId == clientId
            && f.grants[f.tokens[m.handleHash].sid].revoked == None)
  {
  }

  lemma FirstToken(f: Families, s: Step)
    requires s.Create? && s.sid !in f.grants && s.material.handleHash !in f.tokens
    ensures var f2 := Apply(f, s);
      && f2.grants == f.grants[s.sid := f2.grants[s.sid]] && s.material.handleHash in f2.tokens
      && var t, g := f2.tokens[s.material.handleHash], f2.grants[s.sid];
      && f2.tokens == f.tokens[s.material.handleHash := t]
      && t == Token(s.material.tokenHash, s.sid, s.now, Min(s.now + s.profile.idleTtl, s.absoluteExpiry), None, None)
      && g.profile == s.profile && g.credential == s.credential && g.upstream == s.upstream && g.lastUsed == s.now
      && g.idleExpiry == t.expiresAt && g.absoluteExpiry == s.absoluteExpiry
      && g.revoked == None && g.claim == None && !g.started
  {
  }

  // ---- The idle time to live ------------------------------------------------------------------------

  // Whoever completes passes the family's own idle time to live.
  ghost predicate OwnIdle(f: Families, run: seq<Step>) {
    forall k :: 0 <= k < |run| && run[k].Complete? && run[k].sid in After(f, run, k).grants ==>
      run[k].idleTtl == After(f, run, k).grants[run[k].sid].profile.idleTtl
  }

  // An unused token expires after the idle time since it was issued, or with its family.
  predicate IdleBound(f: Families, h: Digest) {
    Live(f, h) && f.tokens[h].sid in f.grants ==>
      var t := f.tokens[h];
      var g := f.grants[t.sid];
      t.expiresAt == Min(t.issuedAt + g.profile.idleTtl, g.absoluteExpiry)
  }

  ghost predicate IdleBounds(f: Families) {
    forall h :: IdleBound(f, h)
  }

  lemma IdleQuiet(f: Families, f2: Families, h: Digest)
    requires OnlyGrants(f, f2) && IdleBound(f, h)
    ensures IdleBound(f2, h)
  {
  }

  lemma IdleEarned(f: Families, s: Step, h: Digest)
    requires Inv(f) && IdleBounds(f) && Entitled(f, s) && Succeeded(f, s, Apply(f, s))
    requires s.Complete? ==> s.idleTtl == f.grants[s.sid].profile.idleTtl
    ensures IdleBound(Apply(f, s), h)
  {
    hide Apply;
    assert IdleBound(f, h);
  }

  lemma IdleOthers(f: Families, s: Step, h: Digest)
    requires IdleBounds(f) && Inv(f) && (s.Create? || s.Cleanup?)
    ensures IdleBound(Apply(f, s), h)
  {
    assert IdleBound(f, h);
  }

  lemma IdleStep(f: Families, s: Step)
    requires Inv(f) && IdleBounds(f)
    requires s.Complete? && s.sid in f.grants ==> s.idleTtl == f.grants[s.sid].profile.idleTtl
    ensures IdleBounds(Apply(f, s))
  {
    hide IdleBound, Inv;
    forall h ensures IdleBound(Apply(f, s), h) {
      TokensAreEarned(f, s, h);
      if s.Create? || s.Cleanup? {
        IdleOthers(f, s, h);
      } else if Entitled(f, s) {
        IdleEarned(f, s, h);
      } else {
        if Quiet(s) {
          QuietStep(f, s);
        } else {
          RotatingStep(f, s);
          assert !Rotated(f, s, s.current.handleHash) by { TokensAreEarned(f, s, s.current.handleHash); }
        }
        IdleQuiet(f, Apply(f, s), h);
      }
    }
  }

  lemma {:induction false} IdleRun(f: Families, run: seq<Step>, n: nat)
    requires Inv(f) && IdleBounds(f) && OwnIdle(f, run) && n <= |run|
    ensures IdleBounds(After(f, run, n))
  {
    hide Apply, Inv, IdleBound;
    if n > 0 {
      IdleRun(f, run, n - 1);
      InvRun(f, run, n - 1);
      IdleStep(After(f, run, n - 1), run[n - 1]);
    }
  }

  const EMPTY := Families(map[], map[])

  // Over every run a token that lay unused for the idle time can no longer be rotated, and one that
  // did not, in a family that lives, presented correctly, always can.
  lemma UnusedTokensExpire(run: seq<Step>, n: nat, h: Digest)
    requires OwnIdle(EMPTY, run) && n < |run|
    ensures var f, s := After(EMPTY, run, n), run[n];
      Rotated(f, s, h) ==>
        && s.now < f.tokens[h].issuedAt + f.grants[f.tokens[h].sid].profile.idleTtl
        && s.now < f.grants[f.tokens[h].sid].absoluteExpiry
    ensures IdleBounds(After(EMPTY, run, n))
  {
    hide Apply, OwnIdle;
    var f := After(EMPTY, run, n);
    IdleRun(EMPTY, run, n);
    TokensAreEarned(f, run[n], h);
    assert IdleBound(f, h);
  }

  // ---- Claims ------------------------------------------------------------------------------------------

  predicate Claimed(f: Families, s: Step, sid: string) {
    && s.Claim? && ClaimRefresh(f, s.current, s.clientId, s.now, s.ttl, s.id).1.Ok?
    && Joined(f, s.current.handleHash) && f.tokens[s.current.handleHash].sid == sid
  }

  // A claim is taken exactly for a good token of the client, in a family without a running claim
  // and without an unfinished upstream refresh, and then runs for its time to live.
  lemma ClaimsAreTaken(f: Families, s: Step, sid: string)
    requires s.Claim?
    ensures Claimed(f, s, sid) <==>
      && Good(f, s.current, s.now) && f.tokens[s.current.handleHash].sid == sid
      && var g := f.grants[sid];
      && g.profile.clientId == s.clientId
      && (g.claim.Some? ==> g.claim.value.expiresAt <= s.now && !g.started)
    ensures Claimed(f, s, sid) ==>
      && Apply(f, s).tokens == f.tokens && sid in Apply(f, s).grants
      && Apply(f, s).grants[sid].claim == Some(RefreshClaim(s.id, s.now + s.ttl)) && !Apply(f, s).grants[sid].started
      && forall u :: Marked(Apply(f, s), Mark(sid, s.id, u), sid) <==> u < s.now + s.ttl
  {
  }

  predicate EndsClaim(f: Families, s: Step, sid: string) {
    || Completed(f, s, sid) || Aborted(f, s, sid) || Created(f, s, sid)
    || (s.Release? && s.sid == sid && HoldsClaim(f, sid, s.id) && !f.grants[sid].started)
  }

  // The family has a claim that runs at least until then, or cannot have one any more.
  predicate RunsUntil(f: Families, sid: string, until: int) {
    sid in f.grants && f.grants[sid].revoked == None ==>
      f.grants[sid].claim.Some? && until <= f.grants[sid].claim.value.expiresAt
  }

  lemma RunsOn(f: Families, s: Step, sid: string, until: int)
    requires RunsUntil(f, sid, until) && !EndsClaim(f, s, sid) && (s.Claim? ==> s.ttl >= 0)
    ensures RunsUntil(Apply(f, s), sid, until)
  {
  }

  lemma NoneTaken(f: Families, s: Step, sid: string, until: int)
    requires RunsUntil(f, sid, until) && s.Claim? && s.now < until
    ensures !Claimed(f, s, sid)
  {
    ClaimsAreTaken(f, s, sid);
  }

  // No step k with i <= k < j ends the family's claim.
  ghost predicate NotEnded(f: Families, run: seq<Step>, sid: string, i: nat, j: nat)
    requires j <= |run|
  {
    forall k :: i <= k < j ==> !EndsClaim(After(f, run, k), run[k], sid)
  }

  // Claims are not taken for less than no time.
  ghost predicate ClaimsRun(run: seq<Step>) {
    forall k :: 0 <= k < |run| && run[k].Claim? ==> run[k].ttl >= 0
  }

  lemma {:induction false} RunsThrough(f: Families, run: seq<Step>, sid: string, until: int, i: nat, j: nat)
    requires i <= j <= |run| && RunsUntil(After(f, run, i), sid, until)
    requires NotEnded(f, run, sid, i, j) && ClaimsRun(run)
    ensures RunsUntil(After(f, run, j), sid, until)
    decreases j
  {
    hide Apply, EndsClaim, RunsUntil;
    if i < j {
      RunsThrough(f, run, sid, until, i, j - 1);
      RunsOn(After(f, run, j - 1), run[j - 1], sid, until);
    }
  }

  lemma TakenRuns(f: Families, run: seq<Step>, sid: string, i: nat)
    requires i < |run| && Claimed(After(f, run, i), run[i], sid)
    ensures run[i].Claim? && RunsUntil(After(f, run, i + 1), sid, run[i].now + run[i].ttl)
  {
    ClaimsAreTaken(After(f, run, i), run[i], sid);
  }

  // Two claims of a family do not overlap: until the first one's time is over, none is taken unless
  // it was completed, aborted or released, whatever else happens in between.
  lemma ClaimsDoNotOverlap(f: Families, run: seq<Step>, sid: string, i: nat, j: nat)
    requires i < j < |run| && Claimed(After(f, run, i), run[i], sid) && Claimed(After(f, run, j), run[j], sid)
    requires NotEnded(f, run, sid, i + 1, j) && ClaimsRun(run)
    ensures run[i].Claim? && run[j].Claim? && run[i].now + run[i].ttl <= run[j].now
  {
    hide *;
    TakenRuns(f, run, sid, i);
    TakenRuns(f, run, sid, j);
    RunsThrough(f, run, sid, run[i].now + run[i].ttl, i + 1, j);
    if run[j].now < run[i].now + run[i].ttl {
      NoneTaken(After(f, run, j), run[j], sid, run[i].now + run[i].ttl);
    }
  }

  // ---- Revocations ---------------------------------------------------------------------------------

  // The step presents a used token of the family, for the right client.
  predicate Replays(f: Families, s: Step, sid: string) {
    && (s.Claim? || s.Rotate?) && s.current.handleHash in f.tokens && sid in f.grants
    && var t := f.tokens[s.current.handleHash];
    && t.sid == sid && t.tokenHash == s.current.tokenHash && t.consumedAt != None
    && f.grants[sid].profile.clientId == s.clientId
  }

  // It would claim the family, but the upstream refresh of a claim that ran out may have happened.
  predicate Stranded(f: Families, s: Step, sid: string) {
    && s.Claim? && Good(f, s.current, s.now) && f.tokens[s.current.handleHash].sid == sid
    && var g := f.grants[sid];
    && g.profile.clientId == s.clientId && g.claim.Some? && g.claim.value.expiresAt <= s.now && g.started
  }

  // It asks for just that, by family, by token or as the user.
  predicate Orders(f: Families, s: Step, sid: string)
    requires sid in f.grants
  {
    match s
    case Revoke(id, clientId, _, _) => id == sid && f.grants[sid].profile.clientId == clientId
    case RevokeToken(m, clientId, _, _) =>
      && m.handleHash in f.tokens && f.tokens[m.handleHash].sid == sid
      && f.tokens[m.handleHash].tokenHash == m.tokenHash && f.grants[sid].profile.clientId == clientId
    case SelfRevoke(id, email, now) =>
      && id == sid && f.grants[sid].profile.email == email
      && now < f.grants[sid].idleExpiry && now < f.grants[sid].absoluteExpiry
    case _ => false
  }

  function ReasonOf(f: Families, s: Step, sid: string): string {
    match s
    case Revoke(_, _, reason, _) => reason
    case RevokeToken(_, _, reason, _) => reason
    case SelfRevoke(_, _, _) => "self_service"
    case _ => if Replays(f, s, sid) then "replay" else "indeterminate_upstream_credential"
  }

  // An active family is revoked by nothing else, and whoever revokes it says when and why.
  lemma RevocationsAreEarned(f: Families, s: Step, sid: string)
    requires sid in f.grants && f.grants[sid].revoked == None && sid in Apply(f, s).grants && !s.RevokeByCredential?
    ensures var g := Apply(f, s).grants[sid];
      && (g.revoked.Some? <==> Replays(f, s, sid) || Stranded(f, s, sid) || Orders(f, s, sid))
      && (g.revoked.Some? ==> g.revoked == Some(Revocation(s.now, ReasonOf(f, s, sid))))
  {
    if s.Create? || s.Cleanup? {
      GrantAppears(f, s, sid);
    }
  }
}
