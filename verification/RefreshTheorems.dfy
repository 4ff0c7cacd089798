// Safety of refresh families over every interleaving of transactions, crashes and cleanup.
//
// A run is a sequence of committed transactions. A crash, a rolled-back transaction or a
// worker that stops is a step that is simply not there, so every interleaving of any
// number of workers is some run.
module RefreshTheorems {
  import opened Common
  import opened RefreshFamilies

  datatype Step =
    | Create(sid: string, profile: Profile, credential: Option<Sealed>, upstream: UpstreamExpiry,
             absoluteExpiry: int, material: RefreshMaterial, now: int)
    | Claim(current: RefreshMaterial, clientId: string, now: int, ttl: int, id: string)
    | Mark(sid: string, id: string, now: int)
    | Release(sid: string, id: string)
    | Abort(sid: string, id: string)
    | Complete(current: RefreshMaterial, replacement: RefreshMaterial, sid: string, idleTtl: int, id: string,
               upstream: UpstreamExpiry, sealed: Sealed, absoluteExpiry: int, now: int)
    | Rotate(current: RefreshMaterial, replacement: RefreshMaterial, clientId: string, now: int)
    | Revoke(sid: string, clientId: string, reason: string, now: int)
    | RevokeToken(current: RefreshMaterial, clientId: string, reason: string, now: int)
    | RevokeByCredential(presented: RevocationCredential, clientId: string, proofJkt: string, reason: string, now: int)
    | SelfRevoke(sid: string, email: string, now: int)
    | Cleanup(sids: set<string>, now: int)

  function Apply(f: Families, s: Step): Families {
    match s
    case Create(sid, profile, credential, upstream, absolute, m, now) =>
      CreateGrant(f, sid, profile, credential, upstream, absolute, m, now).0
    case Claim(m, clientId, now, ttl, id) => ClaimRefresh(f, m, clientId, now, ttl, id).0
    case Mark(sid, id, now) => MarkUpstreamRefreshStarted(f, sid, id, now).0
    case Release(sid, id) => ReleaseRefreshClaim(f, sid, id)
    case Abort(sid, id) => AbortUpstreamRefresh(f, sid, id).0
    case Complete(current, replacement, sid, idleTtl, id, upstream, sealed, absolute, now) =>
      CompleteClaimedRefresh(f, current, replacement, sid, idleTtl, id, upstream, sealed, absolute, now).0
    case Rotate(current, replacement, clientId, now) => RotateRefreshToken(f, current, replacement, clientId, now).0
    case Revoke(sid, clientId, reason, now) => RevokeGrant(f, sid, clientId, reason, now)
    case RevokeToken(m, clientId, reason, now) => RevokeRefreshToken(f, m, clientId, reason, now)
    case RevokeByCredential(c, clientId, proofJkt, reason, now) =>
      RevokeCredential(f, c, clientId, proofJkt, reason, now)
    case SelfRevoke(sid, email, now) => RevokeOwn(f, sid, email, now)
    case Cleanup(sids, now) => DeleteExpired(f, sids, now)
  }

  // The state after the first n steps of a run.
  function After(f: Families, run: seq<Step>, n: nat): Families
    requires n <= |run|
  {
    if n == 0 then f else Apply(After(f, run, n - 1), run[n - 1])
  }

  // ---- What a step did -------------------------------------------------------------

  predicate Created(f: Families, s: Step, sid: string) {
    s.Create? && s.sid == sid && CreateGrant(f, sid, s.profile, s.credential, s.upstream, s.absoluteExpiry, s.material,
      s.now).1.Ok?
  }

  predicate Marked(f: Families, s: Step, sid: string) {
    s.Mark? && s.sid == sid && MarkUpstreamRefreshStarted(f, sid, s.id, s.now).1.Ok?
  }

  predicate Aborted(f: Families, s: Step, sid: string) {
    s.Abort? && s.sid == sid && AbortUpstreamRefresh(f, sid, s.id).1.Ok?
  }

  predicate Completed(f: Families, s: Step, sid: string) {
    s.Complete? && s.sid == sid
    && CompleteClaimedRefresh(f, s.current, s.replacement, sid, s.idleTtl, s.id, s.upstream, s.sealed, s.absoluteExpiry,
      s.now).1.Ok?
  }

  // The step consumed token h and installed its replacement.
  predicate Rotated(f: Families, s: Step, h: Digest) {
    match s
    case Complete(current, _, sid, _, _, _, _, _, _) => current.handleHash == h && Completed(f, s, sid)
    case Rotate(current, replacement, clientId, now) =>
      current.handleHash == h && RotateRefreshToken(f, current, replacement, clientId, now).1.Ok?
    case _ => false
  }

  predicate RotatedFamily(f: Families, s: Step, sid: string) {
    (s.Complete? || s.Rotate?) && Rotated(f, s, s.current.handleHash)
    && Joined(f, s.current.handleHash) && f.tokens[s.current.handleHash].sid == sid
  }

  predicate Inserted(f: Families, s: Step, h: Digest) {
    match s
    case Create(sid, _, _, _, _, m, _) => m.handleHash == h && Created(f, s, sid)
    case Complete(current, replacement, _, _, _, _, _, _, _) => replacement.handleHash == h
      && Rotated(f, s, current.handleHash)
    case Rotate(current, replacement, _, _) => replacement.handleHash == h && Rotated(f, s, current.handleHash)
    case _ => false
  }

  // ---- The state invariant ---------------------------------------------------------

  predicate Live(f: Families, h: Digest) {
    h in f.tokens && f.tokens[h].consumedAt.None?
  }

  ghost predicate Inv(f: Families) {
    && (forall h :: h in f.tokens ==> f.tokens[h].sid in f.grants)
    && (forall h, k :: Live(f, h) && Live(f, k) && f.tokens[h].sid == f.tokens[k].sid ==> h == k)
    && (forall h :: Live(f, h) ==> f.tokens[h].expiresAt == f.grants[f.tokens[h].sid].idleExpiry)
    && (forall sid :: sid in f.grants ==> GrantInv(f.grants[sid]))
  }

  // Expiry order, and the fence: an upstream rotation is under way only inside a claim.
  predicate GrantInv(g: Grant) {
    g.idleExpiry <= g.absoluteExpiry && (g.started ==> g.claim.Some? || g.revoked.Some?)
  }

  // The four shapes a step can have: it updates grants in place, replaces one token by
  // another, creates a family, or deletes families.
  ghost predicate OnlyGrants(f: Families, f2: Families) {
    && f2.tokens == f.tokens
    && f2.grants.Keys == f.grants.Keys
    && forall sid :: sid in f.grants ==>
      && f2.grants[sid].profile == f.grants[sid].profile
      && f2.grants[sid].idleExpiry == f.grants[sid].idleExpiry
      && f2.grants[sid].absoluteExpiry == f.grants[sid].absoluteExpiry
      && f2.grants[sid].credential == f.grants[sid].credential && f2.grants[sid].upstream == f.grants[sid].upstream
      && (f.grants[sid].revoked.Some? ==> f2.grants[sid].revoked == f.grants[sid].revoked)
      && (GrantInv(f.grants[sid]) ==> GrantInv(f2.grants[sid]))
  }

  ghost predicate Replaces(f: Families, f2: Families, h: Digest, r: RefreshMaterial, now: int) {
    && Live(f, h) && f.tokens[h].sid in f.grants && r.handleHash !in f.tokens
    && var sid := f.tokens[h].sid;
    && sid in f2.grants && f2.grants == f.grants[sid := f2.grants[sid]]
    && f2.tokens == Replace(f.tokens, h, r, now, f2.grants[sid].idleExpiry)
    && f2.grants[sid].absoluteExpiry <= f.grants[sid].absoluteExpiry
    && f2.grants[sid].profile == f.grants[sid].profile
    && f2.grants[sid].revoked.None? && f.grants[sid].revoked.None?
    && (GrantInv(f.grants[sid]) ==> GrantInv(f2.grants[sid]))
  }

  predicate Quiet(s: Step) {
    !s.Create? && !s.Complete? && !s.Rotate? && !s.Cleanup?
  }

  // The one row an in-place step can change.
  function Target(f: Families, s: Step): string {
    match s
    case Claim(m, _, _, _, _) => if m.handleHash in f.tokens then f.tokens[m.handleHash].sid else ""
    case RevokeToken(m, _, _, _) => if m.handleHash in f.tokens then f.tokens[m.handleHash].sid else ""
    case RevokeByCredential(c, _, _, _, _) =>
      if c.refresh.None? then c.sid
      else if c.refresh.value.handleHash in f.tokens then f.tokens[c.refresh.value.handleHash].sid else ""
    case Mark(sid, _, _) => sid
    case Release(sid, _) => sid
    case Abort(sid, _) => sid
    case Revoke(sid, _, _, _) => sid
    case SelfRevoke(sid, _, _) => sid
    case _ => ""
  }

  predicate Tweaked(g: Grant, g2: Grant) {
    && g2.profile == g.profile && g2.idleExpiry == g.idleExpiry && g2.absoluteExpiry == g.absoluteExpiry
    && g2.credential == g.credential && g2.upstream == g.upstream
    && (GrantInv(g) ==> GrantInv(g2))
    && (g.revoked.Some? ==> g2.revoked == g.revoked)
  }

  lemma QuietRow(f: Families, s: Step)
    requires Quiet(s)
    ensures Apply(f, s) == f
            || var sid := Target(f, s);
               && sid in f.grants && sid in Apply(f, s).grants
               && Apply(f, s) == f.(grants := f.grants[sid := Apply(f, s).grants[sid]])
               && Tweaked(f.grants[sid], Apply(f, s).grants[sid])
  {
  }

  lemma QuietStep(f: Families, s: Step)
    requires Quiet(s)
    ensures OnlyGrants(f, Apply(f, s))
  {
    QuietRow(f, s);
  }

  lemma RotatingStep(f: Families, s: Step)
    requires s.Complete? || s.Rotate?
    ensures Rotated(f, s, s.current.handleHash) ==> Replaces(f, Apply(f, s), s.current.handleHash, s.replacement, s.now)
    ensures !Rotated(f, s, s.current.handleHash) ==> OnlyGrants(f, Apply(f, s))
  {
  }

  lemma InvOnlyGrants(f: Families, f2: Families)
    requires Inv(f) && OnlyGrants(f, f2)
    ensures Inv(f2)
  {
    assert forall h :: Live(f2, h) <==> Live(f, h);
  }

  lemma InvReplaces(f: Families, f2: Families, h: Digest, r: RefreshMaterial, now: int)
    requires Inv(f) && Replaces(f, f2, h, r, now)
    ensures Inv(f2)
  {
    var sid := f.tokens[h].sid;
    forall k | Live(f2, k) && f2.tokens[k].sid == sid ensures k == r.handleHash {
      assert k == r.handleHash || Live(f, k);
    }
    assert forall k :: Live(f2, k) && f2.tokens[k].sid != sid ==> Live(f, k);
  }

  lemma InvCreate(f: Families, s: Step)
    requires Inv(f) && s.Create?
    ensures Inv(Apply(f, s))
  {
    var f2 := Apply(f, s);
    assert forall k :: Live(f2, k) && k != s.material.handleHash ==> Live(f, k);
  }

  lemma InvCleanup(f: Families, s: Step)
    requires Inv(f) && s.Cleanup?
    ensures Inv(Apply(f, s))
  {
    assert forall k :: Live(Apply(f, s), k) ==> Live(f, k);
  }

  lemma InvStep(f: Families, s: Step)
    requires Inv(f)
    ensures Inv(Apply(f, s))
  {
    if s.Create? {
      InvCreate(f, s);
    } else if s.Cleanup? {
      InvCleanup(f, s);
    } else if Quiet(s) {
      QuietStep(f, s);
      InvOnlyGrants(f, Apply(f, s));
    } else {
      RotatingStep(f, s);
      if Rotated(f, s, s.current.handleHash) {
        InvReplaces(f, Apply(f, s), s.current.handleHash, s.replacement, s.now);
      } else {
        InvOnlyGrants(f, Apply(f, s));
      }
    }
  }

  lemma {:induction false} InvRun(f: Families, run: seq<Step>, n: nat)
    requires Inv(f) && n <= |run|
    ensures Inv(After(f, run, n))
  {
    hide Apply, Inv;
    if n > 0 {
      InvRun(f, run, n - 1);
      InvStep(After(f, run, n - 1), run[n - 1]);
    }
  }

  // ---- The family chain ------------------------------------------------------------

  ghost predicate IsChain(f: Families, sid: string, c: seq<Digest>) {
    && |c| > 0
    && (forall i :: 0 <= i < |c| ==> c[i] in f.tokens && f.tokens[c[i]].sid == sid)
    && (forall i, j :: 0 <= i < j < |c| ==> c[i] != c[j])
    && (forall h :: h in f.tokens && f.tokens[h].sid == sid ==> h in c)
    && (forall i :: 0 <= i < |c| - 1 ==> Linked(f, c[i], c[i + 1]))
    && Live(f, c[|c| - 1])
  }

  predicate Linked(f: Families, h: Digest, next: Digest) {
    && h in f.tokens && next in f.tokens
    && f.tokens[h].consumedAt.Some? && f.tokens[h].replacement == Some(f.tokens[next].tokenHash)
  }

  // Successful rotations of a family among the first n steps, since the family was created.
  function Rotations(f: Families, run: seq<Step>, sid: string, n: nat): nat
    requires n <= |run|
  {
    if n == 0 then 0
    else
      var before := After(f, run, n - 1);
      if Created(before, run[n - 1], sid) then 0
      else Rotations(f, run, sid, n - 1) + if RotatedFamily(before, run[n - 1], sid) then 1 else 0
  }

  // Only the end of a chain is unconsumed.
  lemma LiveIsLast(f: Families, sid: string, c: seq<Digest>, h: Digest)
    requires IsChain(f, sid, c) && Live(f, h) && f.tokens[h].sid == sid
    ensures h == c[|c| - 1]
  {
    var i :| 0 <= i < |c| && c[i] == h;
    assert i == |c| - 1 || Linked(f, c[i], c[i + 1]);
  }

  lemma LinkKept(f: Families, f2: Families, h: Digest, r: RefreshMaterial, now: int, a: Digest, b: Digest)
    requires Replaces(f, f2, h, r, now) && Linked(f, a, b)
    ensures Linked(f2, a, b)
  {
  }

  lemma ChainExtended(f: Families, f2: Families, h: Digest, r: RefreshMaterial, now: int, c: seq<Digest>)
    requires Replaces(f, f2, h, r, now) && IsChain(f, f.tokens[h].sid, c)
    ensures IsChain(f2, f.tokens[h].sid, c + [r.handleHash])
  {
    var sid := f.tokens[h].sid;
    var c2 := c + [r.handleHash];
    LiveIsLast(f, sid, c, h);
    assert Linked(f2, h, r.handleHash) && Live(f2, r.handleHash) && f2.tokens[r.handleHash].sid == sid;
    forall i | 0 <= i < |c2| ensures c2[i] in f2.tokens && f2.tokens[c2[i]].sid == sid {
      assert i < |c| ==> c2[i] == c[i];
    }
    forall k | k in f2.tokens && f2.tokens[k].sid == sid ensures k in c2 {
      assert k == r.handleHash || k in c;
    }
    forall i | 0 <= i < |c2| - 1 ensures Linked(f2, c2[i], c2[i + 1]) {
      if i < |c| - 1 {
        LinkKept(f, f2, h, r, now, c[i], c[i + 1]);
      }
    }
    forall i, j | 0 <= i < j < |c2| ensures c2[i] != c2[j] {
      assert c2[i] == c[i] && c[i] in f.tokens;
    }
  }

  lemma ChainReplaced(f: Families, f2: Families, h: Digest, r: RefreshMaterial, now: int, sid: string, c: seq<Digest>)
    requires Replaces(f, f2, h, r, now) && IsChain(f, sid, c)
    ensures IsChain(f2, sid, if f.tokens[h].sid == sid then c + [r.handleHash] else c)
  {
    if f.tokens[h].sid == sid {
      ChainExtended(f, f2, h, r, now, c);
    } else {
      ChainKept(f, f2, sid, c);
    }
  }

  // Both states hold the same token rows for the family.
  ghost predicate SameTokens(f: Families, f2: Families, sid: string) {
    && (forall h :: h in f.tokens && f.tokens[h].sid == sid ==> h in f2.tokens && f2.tokens[h] == f.tokens[h])
    && (forall h :: h in f2.tokens && f2.tokens[h].sid == sid ==> h in f.tokens && f2.tokens[h] == f.tokens[h])
  }

  lemma ChainKept(f: Families, f2: Families, sid: string, c: seq<Digest>)
    requires IsChain(f, sid, c) && SameTokens(f, f2, sid)
    ensures IsChain(f2, sid, c)
  {
    forall i | 0 <= i < |c| - 1 ensures Linked(f2, c[i], c[i + 1]) {
      assert Linked(f, c[i], c[i + 1]);
    }
  }

  lemma KeepsTokens(f: Families, s: Step, sid: string)
    requires sid in f.grants && sid in Apply(f, s).grants && (s.Create? || s.Cleanup? || Quiet(s))
    ensures SameTokens(f, Apply(f, s), sid) && !Created(f, s, sid)
  {
    if Quiet(s) {
      QuietStep(f, s);
    }
  }

  lemma ChainRotating(f: Families, s: Step, sid: string, c: seq<Digest>)
    requires IsChain(f, sid, c) && (s.Complete? || s.Rotate?)
    ensures IsChain(Apply(f, s), sid, if RotatedFamily(f, s, sid) then c + [s.replacement.handleHash] else c)
  {
    RotatingStep(f, s);
    if Rotated(f, s, s.current.handleHash) {
      ChainReplaced(f, Apply(f, s), s.current.handleHash, s.replacement, s.now, sid, c);
    } else {
      ChainKept(f, Apply(f, s), sid, c);
    }
  }

  lemma ChainStep(f: Families, s: Step, sid: string, c: seq<Digest>) returns (c2: seq<Digest>)
    requires (forall h :: h in f.tokens ==> f.tokens[h].sid in f.grants) && (sid in f.grants ==> IsChain(f, sid, c))
    ensures sid in Apply(f, s).grants ==>
      && IsChain(Apply(f, s), sid, c2)
      && |c2| == if Created(f, s, sid) then 1 else |c| + if RotatedFamily(f, s, sid) then 1 else 0
  {
    GrantAppears(f, s, sid);
    c2 := c;
    if sid !in f.grants {
      if s.Create? {
        c2 := [s.material.handleHash];
      }
    } else if s.Complete? || s.Rotate? {
      ChainRotating(f, s, sid, c);
      if RotatedFamily(f, s, sid) {
        c2 := c + [s.replacement.handleHash];
      }
    } else if sid in Apply(f, s).grants {
      KeepsTokens(f, s, sid);
      ChainKept(f, Apply(f, s), sid, c);
    }
  }

  const EMPTY := Families(map[], map[])

  lemma ReachableInv(run: seq<Step>, n: nat)
    requires n <= |run|
    ensures Inv(After(EMPTY, run, n))
  {
    assert Inv(EMPTY);
    InvRun(EMPTY, run, n);
  }

  // In every reachable state the tokens of a family form one chain that ends in its only
  // unconsumed token, one link per successful rotation.
  lemma {:induction false} FamilyChain(run: seq<Step>, sid: string, n: nat)
    requires n <= |run|
    ensures sid in After(EMPTY, run, n).grants ==>
      exists c :: IsChain(After(EMPTY, run, n), sid, c) && |c| == 1 + Rotations(EMPTY, run, sid, n)
  {
    hide Apply, IsChain, Created, RotatedFamily;
    if n > 0 {
      var f := After(EMPTY, run, n - 1);
      FamilyChain(run, sid, n - 1);
      ReachableInv(run, n - 1);
      var c: seq<Digest> := [];
      if sid in f.grants {
        c :| IsChain(f, sid, c) && |c| == 1 + Rotations(EMPTY, run, sid, n - 1);
      }
      var c2 := ChainStep(f, run[n - 1], sid, c);
      GrantAppears(f, run[n - 1], sid);
    }
  }

  lemma GrantAppears(f: Families, s: Step, sid: string)
    ensures sid in Apply(f, s).grants && sid !in f.grants ==> Created(f, s, sid)
  {
    if Quiet(s) {
      QuietStep(f, s);
    } else if s.Complete? || s.Rotate? {
      RotatingStep(f, s);
    }
  }

  // ---- The fence -------------------------------------------------------------------

  // Claim id is inside its upstream rotation, or the family can never be marked again.
  predicate Fenced(f: Families, sid: string, id: string) {
    sid !in f.grants || f.grants[sid].revoked.Some? || (f.grants[sid].started && HoldsClaim(f, sid, id))
  }

  predicate EndsFence(f: Families, s: Step, sid: string) {
    Completed(f, s, sid) || Aborted(f, s, sid) || Created(f, s, sid)
  }

  lemma FencedQuiet(f: Families, s: Step, sid: string, id: string)
    requires Inv(f) && Fenced(f, sid, id) && Quiet(s) && !Aborted(f, s, sid)
    ensures Fenced(Apply(f, s), sid, id)
  {
    QuietRow(f, s);
  }

  lemma FencedStep(f: Families, s: Step, sid: string, id: string)
    requires Inv(f) && Fenced(f, sid, id) && !EndsFence(f, s, sid)
    ensures Fenced(Apply(f, s), sid, id)
  {
    GrantAppears(f, s, sid);
    if Quiet(s) {
      hide Apply;
      FencedQuiet(f, s, sid, id);
    } else if s.Complete? || s.Rotate? {
      hide Inv;
      RotatingStep(f, s);
    }
  }

  lemma {:induction false} FencedRun(f: Families, run: seq<Step>, sid: string, id: string, i: nat, j: nat)
    requires Inv(f) && i <= j <= |run| && Fenced(After(f, run, i), sid, id)
    requires forall k :: i <= k < j ==> !EndsFence(After(f, run, k), run[k], sid)
    ensures Fenced(After(f, run, j), sid, id)
    decreases j
  {
    hide Apply, EndsFence, Inv, Fenced;
    if i < j {
      FencedRun(f, run, sid, id, i, j - 1);
      InvRun(f, run, j - 1);
      FencedStep(After(f, run, j - 1), run[j - 1], sid, id);
    }
  }

  // Two successful marks of one family with no completion or abort between them carry the same claim.
  lemma MarksShareClaim(f: Families, run: seq<Step>, sid: string, i: nat, j: nat)
    requires Inv(f) && i < j < |run|
    requires Marked(After(f, run, i), run[i], sid) && Marked(After(f, run, j), run[j], sid)
    requires forall k :: i < k < j ==> !EndsFence(After(f, run, k), run[k], sid)
    ensures run[i].id == run[j].id
  {
    assert Fenced(After(f, run, i + 1), sid, run[i].id);
    FencedRun(f, run, sid, run[i].id, i + 1, j);
  }

  // ---- What is done under one claim ------------------------------------------------

  // Successful marks and aborts under one claim id. Every mark is one credential sent upstream.
  datatype Tally = Tally(marks: nat, aborts: nat)

  predicate MarkedUnder(f: Families, s: Step, id: string) {
    s.Mark? && s.id == id && Marked(f, s, s.sid)
  }

  predicate AbortedUnder(f: Families, s: Step, id: string) {
    s.Abort? && s.id == id && Aborted(f, s, s.sid)
  }

  function Counted(t: Tally, f: Families, s: Step, id: string): Tally {
    if MarkedUnder(f, s, id) then t.(marks := t.marks + 1)
    else if AbortedUnder(f, s, id) then t.(aborts := t.aborts + 1)
    else t
  }

  function TallyOf(f: Families, run: seq<Step>, id: string, n: nat): Tally
    requires n <= |run|
  {
    if n == 0 then Tally(0, 0) else Counted(TallyOf(f, run, id, n - 1), After(f, run, n - 1), run[n - 1], id)
  }

  // What comes later in a run changes nothing of what was before.
  lemma {:induction false} PrefixKept(f: Families, run: seq<Step>, longer: seq<Step>, id: string, n: nat)
    requires n <= |run| && run <= longer
    ensures After(f, longer, n) == After(f, run, n) && TallyOf(f, longer, id, n) == TallyOf(f, run, id, n)
  {
    if n > 0 {
      PrefixKept(f, run, longer, id, n - 1);
    }
  }

  lemma OneMore(f: Families, run: seq<Step>, s: Step, id: string)
    ensures After(f, run + [s], |run| + 1) == Apply(After(f, run, |run|), s)
    ensures TallyOf(f, run + [s], id, |run| + 1) == Counted(TallyOf(f, run, id, |run|), After(f, run, |run|), s, id)
  {
    PrefixKept(f, run, run + [s], id, |run|);
  }

  lemma {:induction false} TallyGrows(f: Families, run: seq<Step>, id: string, m: nat, n: nat)
    requires m <= n <= |run|
    ensures TallyOf(f, run, id, m).marks <= TallyOf(f, run, id, n).marks
    ensures TallyOf(f, run, id, m).aborts <= TallyOf(f, run, id, n).aborts
    decreases n
  {
    hide MarkedUnder, AbortedUnder;
    if m < n {
      TallyGrows(f, run, id, m, n - 1);
    }
  }

  // Steps m to n do not touch a claim id if none of them marks or aborts under it.
  ghost predicate Untouched(run: seq<Step>, id: string, m: nat, n: nat) {
    forall k :: m <= k < n && k < |run| && (run[k].Mark? || run[k].Abort?) ==> run[k].id != id
  }

  lemma {:induction false} UntouchedKeeps(f: Families, run: seq<Step>, id: string, m: nat, n: nat)
    requires m <= n <= |run| && Untouched(run, id, m, n)
    ensures TallyOf(f, run, id, m) == TallyOf(f, run, id, n)
    decreases n
  {
    hide Marked, Aborted;
    if m < n {
      UntouchedKeeps(f, run, id, m, n - 1);
    }
  }

  // ---- One credential, one rotation ------------------------------------------------

  // One exchange of a connector-backed token in a run: its claim id, its first and last steps,
  // and whether the provider answered that it is misconfigured, so that nothing was rotated.
  datatype Visit = Visit(id: string, from: nat, to: nat, misconfigured: bool)

  // How an exchange behaves between its first and its last step: one mark, and an abort only
  // after a configuration error.
  predicate Disciplined(before: Tally, after: Tally, misconfigured: bool) {
    after.marks <= before.marks + 1 && (after.aborts > before.aborts ==> misconfigured)
  }

  // Marks and aborts come from disciplined exchanges, each under a claim id of its own.
  ghost predicate MadeOf(f: Families, run: seq<Step>, visits: seq<Visit>) {
    && (forall v :: 0 <= v < |visits| ==> FromExchange(f, run, visits[v]))
    && (forall v, w :: 0 <= v < w < |visits| ==> visits[v].id != visits[w].id)
    && (forall k :: 0 <= k < |run| && (run[k].Mark? || run[k].Abort?) ==>
          exists v :: 0 <= v < |visits| && visits[v].id == run[k].id)
  }

  ghost predicate FromExchange(f: Families, run: seq<Step>, v: Visit) {
    && v.from <= v.to <= |run|
    && Disciplined(TallyOf(f, run, v.id, v.from), TallyOf(f, run, v.id, v.to), v.misconfigured)
    && Untouched(run, v.id, 0, v.from) && Untouched(run, v.id, v.to, |run|)
  }

  // What one exchange promises of its own part of the record makes it such a visit of any record
  // that goes on from there, if its claim id is its own.
  lemma ExchangeVisits(
    f: Families, before: seq<Step>, after: seq<Step>, run: seq<Step>, id: string, misconfigured: bool)
    requires before <= after <= run
    requires Disciplined(TallyOf(f, before, id, |before|), TallyOf(f, after, id, |after|), misconfigured)
    requires Untouched(run, id, 0, |before|) && Untouched(run, id, |after|, |run|)
    ensures FromExchange(f, run, Visit(id, |before|, |after|, misconfigured))
  {
    PrefixKept(f, before, run, id, |before|);
    PrefixKept(f, after, run, id, |after|);
  }

  // So does one that crashed: what is on record of it is the beginning of what it would have done.
  lemma CrashVisits(
    f: Families, before: seq<Step>, crashed: seq<Step>, finished: seq<Step>, run: seq<Step>, id: string,
    misconfigured: bool)
    requires before <= crashed <= finished && crashed <= run
    requires Disciplined(TallyOf(f, before, id, |before|), TallyOf(f, finished, id, |finished|), misconfigured)
    requires Untouched(run, id, 0, |before|) && Untouched(run, id, |crashed|, |run|)
    ensures FromExchange(f, run, Visit(id, |before|, |crashed|, misconfigured))
  {
    PrefixKept(f, before, finished, id, |before|);
    PrefixKept(f, crashed, finished, id, |crashed|);
    TallyGrows(f, finished, id, |before|, |crashed|);
    TallyGrows(f, finished, id, |crashed|, |finished|);
    ExchangeVisits(f, before, crashed, run, id, misconfigured);
  }

  lemma VisitTally(f: Families, run: seq<Step>, v: Visit)
    requires FromExchange(f, run, v)
    ensures Disciplined(Tally(0, 0), TallyOf(f, run, v.id, |run|), v.misconfigured)
  {
    hide After, Counted;
    UntouchedKeeps(f, run, v.id, 0, v.from);
    UntouchedKeeps(f, run, v.id, v.to, |run|);
  }

  lemma TwoMarks(f: Families, run: seq<Step>, id: string, i: nat, j: nat)
    requires i < j < |run| && MarkedUnder(After(f, run, i), run[i], id) && MarkedUnder(After(f, run, j), run[j], id)
    ensures TallyOf(f, run, id, |run|).marks >= 2
  {
    hide MarkedUnder, AbortedUnder, After;
    TallyGrows(f, run, id, 0, i);
    TallyGrows(f, run, id, i + 1, j);
    TallyGrows(f, run, id, j + 1, |run|);
  }

  lemma OneAbort(f: Families, run: seq<Step>, id: string, k: nat)
    requires k < |run| && AbortedUnder(After(f, run, k), run[k], id)
    ensures TallyOf(f, run, id, |run|).aborts >= 1
  {
    hide After;
    TallyGrows(f, run, id, k + 1, |run|);
  }

  // The family's credential was replaced, the family began anew, or a provider's configuration
  // error proved that the rotation under way had not taken place.
  ghost predicate Excused(f: Families, s: Step, sid: string, visits: seq<Visit>) {
    || Completed(f, s, sid) || Created(f, s, sid)
    || (Aborted(f, s, sid) && exists v :: 0 <= v < |visits| && visits[v].id == s.id && visits[v].misconfigured)
  }

  // Over every interleaving of exchanges, the credential stored for a family is sent upstream
  // for rotation at most once, unless it was replaced or the provider was proved misconfigured.
  lemma CredentialSentOnce(f: Families, run: seq<Step>, visits: seq<Visit>, sid: string, i: nat, j: nat)
    requires Inv(f) && MadeOf(f, run, visits) && i < j < |run|
    requires Marked(After(f, run, i), run[i], sid) && Marked(After(f, run, j), run[j], sid)
    ensures exists k :: i < k < j && Excused(After(f, run, k), run[k], sid, visits)
  {
    hide Apply, After, TallyOf, FromExchange, Disciplined;
    if forall k :: i < k < j ==> !EndsFence(After(f, run, k), run[k], sid) {
      MarksShareClaim(f, run, sid, i, j);
      TwoMarks(f, run, run[i].id, i, j);
      OnlyOneMark(f, run, visits, i);
      assert false;
    }
    var k :| i < k < j && EndsFence(After(f, run, k), run[k], sid);
    if Aborted(After(f, run, k), run[k], sid) {
      AbortExcused(f, run, visits, k, sid);
    }
    assert Excused(After(f, run, k), run[k], sid, visits);
  }

  lemma OnlyOneMark(f: Families, run: seq<Step>, visits: seq<Visit>, i: nat)
    requires MadeOf(f, run, visits) && i < |run| && run[i].Mark?
    ensures TallyOf(f, run, run[i].id, |run|).marks <= 1
  {
    var v :| 0 <= v < |visits| && visits[v].id == run[i].id;
    VisitTally(f, run, visits[v]);
  }

  lemma AbortExcused(f: Families, run: seq<Step>, visits: seq<Visit>, k: nat, sid: string)
    requires MadeOf(f, run, visits) && k < |run| && Aborted(After(f, run, k), run[k], sid)
    ensures exists v :: 0 <= v < |visits| && visits[v].id == run[k].id && visits[v].misconfigured
  {
    var v :| 0 <= v < |visits| && visits[v].id == run[k].id;
    VisitTally(f, run, visits[v]);
    OneAbort(f, run, run[k].id, k);
  }
}
