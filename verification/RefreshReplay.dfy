// Replay and lifetimes over whole runs: consumption and revocation are permanent, a replayed
// token kills its family, and a family's absolute expiry never moves later.
module RefreshReplay {
  import opened Common
  import opened RefreshFamilies
  import opened RefreshTheorems

  // ---- Consumption is permanent ----------------------------------------------------

  predicate Consumed(f: Families, h: Digest) {
    h in f.tokens && f.tokens[h].consumedAt.Some?
  }

  lemma ConsumedStep(f: Families, s: Step, h: Digest)
    requires (h in f.tokens ==> Consumed(f, h)) && !Inserted(f, s, h)
    ensures h in Apply(f, s).tokens ==> h in f.tokens && Apply(f, s).tokens[h] == f.tokens[h]
  {
    if Quiet(s) {
      QuietStep(f, s);
    } else if s.Complete? || s.Rotate? {
      RotatingStep(f, s);
    }
  }

  // No step k with i <= k < j inserts handle h: the handle is not generated again.
  ghost predicate NotReissued(f: Families, run: seq<Step>, h: Digest, i: nat, j: nat)
    requires j <= |run|
  {
    forall k :: i <= k < j ==> !Inserted(After(f, run, k), run[k], h)
  }

  lemma {:induction false} ConsumedForever(f: Families, run: seq<Step>, h: Digest, i: nat, j: nat)
    requires i <= j <= |run| && (h in After(f, run, i).tokens ==> Consumed(After(f, run, i), h))
    requires NotReissued(f, run, h, i, j)
    ensures h in After(f, run, j).tokens ==>
      h in After(f, run, i).tokens && After(f, run, j).tokens[h] == After(f, run, i).tokens[h]
    decreases j
  {
    hide Apply, Inserted;
    if i < j {
      ConsumedForever(f, run, h, i, j - 1);
      ConsumedStep(After(f, run, j - 1), run[j - 1], h);
    }
  }

  lemma RotatedConsumes(f: Families, s: Step, h: Digest)
    requires Rotated(f, s, h)
    ensures Live(f, h) && Consumed(Apply(f, s), h) && Joined(f, h) && f.grants[f.tokens[h].sid].revoked.None?
  {
    RotatingStep(f, s);
  }

  lemma ConsumedAfter(f: Families, run: seq<Step>, h: Digest, i: nat)
    requires i < |run| && Rotated(After(f, run, i), run[i], h)
    ensures Consumed(After(f, run, i + 1), h)
  {
    RotatedConsumes(After(f, run, i), run[i], h);
  }

  lemma NotRotatedAgain(f: Families, run: seq<Step>, h: Digest, i: nat, j: nat)
    requires i <= j < |run| && Consumed(After(f, run, i), h) && NotReissued(f, run, h, i, j)
    ensures !Rotated(After(f, run, j), run[j], h)
  {
    hide Apply, Rotated, Inserted;
    ConsumedForever(f, run, h, i, j);
    if Rotated(After(f, run, j), run[j], h) {
      RotatedConsumes(After(f, run, j), run[j], h);
    }
  }

  // No token is rotated by two requests: a second rotation of the same handle needs the handle
  // to have been generated again after its family was deleted.
  lemma RotatedAtMostOnce(f: Families, run: seq<Step>, h: Digest, i: nat, j: nat)
    requires i < j < |run|
    requires Rotated(After(f, run, i), run[i], h) && Rotated(After(f, run, j), run[j], h)
    ensures !NotReissued(f, run, h, i + 1, j)
  {
    hide *;
    ConsumedAfter(f, run, h, i);
    if NotReissued(f, run, h, i + 1, j) {
      NotRotatedAgain(f, run, h, i + 1, j);
    }
  }

  // The empty-material rotation Exchange performs after PrepareRefresh reported a replay can
  // never install a token, whatever happened in between.
  lemma EmptyRotationInert(
    f: Families, run: seq<Step>, m: RefreshMaterial, clientId: string, t: int, now: int, i: nat, j: nat)
    requires i <= j <= |run| && PrepareRefresh(After(f, run, i), m, clientId, t) == Err(RefreshReplay)
    requires NotReissued(f, run, m.handleHash, i, j)
    ensures RotateRefreshToken(After(f, run, j), m, EMPTY_MATERIAL, clientId, now).1.Err?
    ensures RotateRefreshToken(After(f, run, j), m, EMPTY_MATERIAL, clientId, now).0.tokens == After(f, run, j).tokens
  {
    hide Apply, Inserted;
    ConsumedForever(f, run, m.handleHash, i, j);
  }

  // ---- Revocation is permanent -----------------------------------------------------

  ghost predicate NotRecreated(f: Families, run: seq<Step>, sid: string, i: nat, j: nat)
    requires j <= |run|
  {
    forall k :: i <= k < j ==> !Created(After(f, run, k), run[k], sid)
  }

  predicate Dead(f: Families, sid: string) {
    sid !in f.grants || f.grants[sid].revoked.Some?
  }

  // The family's rows as far as replay is concerned: when and why it was revoked, and its tokens.
  ghost predicate SameFamily(f: Families, f2: Families, sid: string) {
    && sid in f.grants && sid in f2.grants && f2.grants[sid].revoked == f.grants[sid].revoked
    && SameTokens(f, f2, sid)
  }

  lemma DeadQuiet(f: Families, s: Step, sid: string)
    requires Dead(f, sid) && Quiet(s)
    ensures Dead(Apply(f, s), sid)
    ensures sid in Apply(f, s).grants ==> SameFamily(f, Apply(f, s), sid)
  {
    hide Apply;
    QuietRow(f, s);
  }

  lemma DeadRotating(f: Families, s: Step, sid: string)
    requires Dead(f, sid) && (s.Complete? || s.Rotate?)
    ensures Dead(Apply(f, s), sid) && !RotatedFamily(f, s, sid)
    ensures sid in Apply(f, s).grants ==> SameFamily(f, Apply(f, s), sid)
  {
    hide Apply, CompleteClaimedRefresh, RotateRefreshToken;
    RotatingStep(f, s);
  }

  lemma DeadStep(f: Families, s: Step, sid: string)
    requires Dead(f, sid) && !Created(f, s, sid)
    ensures Dead(Apply(f, s), sid) && !RotatedFamily(f, s, sid)
    ensures sid in Apply(f, s).grants ==> SameFamily(f, Apply(f, s), sid)
  {
    if Quiet(s) {
      hide Apply;
      DeadQuiet(f, s, sid);
    } else if s.Complete? || s.Rotate? {
      hide Apply;
      DeadRotating(f, s, sid);
    } else {
      GrantAppears(f, s, sid);
      if sid in Apply(f, s).grants {
        KeepsTokens(f, s, sid);
      }
    }
  }

  // A revoked family never gains, loses or consumes a token, and its revocation is written once.
  lemma {:induction false} DeadForever(f: Families, run: seq<Step>, sid: string, i: nat, j: nat)
    requires i <= j <= |run| && Dead(After(f, run, i), sid)
    requires NotRecreated(f, run, sid, i, j)
    ensures Dead(After(f, run, j), sid)
    ensures sid in After(f, run, j).grants ==> SameFamily(After(f, run, i), After(f, run, j), sid)
    ensures forall k :: i <= k < j ==> !RotatedFamily(After(f, run, k), run[k], sid)
    decreases j
  {
    hide Apply, Created, RotatedFamily;
    if i < j {
      DeadForever(f, run, sid, i, j - 1);
      DeadStep(After(f, run, j - 1), run[j - 1], sid);
      GrantAppears(After(f, run, j - 1), run[j - 1], sid);
    }
  }

  // The step presents token h of family sid, correctly and for the right client.
  predicate Presents(f: Families, s: Step, h: Digest, sid: string) {
    && (s.Claim? || s.Rotate?) && s.current.handleHash == h && Joined(f, h)
    && f.tokens[h].tokenHash == s.current.tokenHash && f.tokens[h].sid == sid
    && f.grants[sid].profile.clientId == s.clientId
  }

  lemma PresentedDies(f: Families, run: seq<Step>, h: Digest, sid: string, i: nat, j: nat)
    requires i <= j < |run| && Consumed(After(f, run, i), h) && NotReissued(f, run, h, i, j)
    requires Presents(After(f, run, j), run[j], h, sid)
    ensures Dead(After(f, run, j + 1), sid)
  {
    ConsumedForever(f, run, h, i, j);
    assert Consumed(After(f, run, j), h);
  }

  // Presenting a token again after it was rotated ends its family for good.
  lemma ReplayKillsFamily(f: Families, run: seq<Step>, h: Digest, sid: string, i: nat, j: nat, n: nat)
    requires i < j < n <= |run|
    requires Rotated(After(f, run, i), run[i], h) && Presents(After(f, run, j), run[j], h, sid)
    requires NotReissued(f, run, h, i + 1, j) && NotRecreated(f, run, sid, j + 1, n)
    ensures Dead(After(f, run, n), sid)
    ensures forall k :: j < k < n ==> !RotatedFamily(After(f, run, k), run[k], sid)
  {
    hide *;
    ConsumedAfter(f, run, h, i);
    PresentedDies(f, run, h, sid, i + 1, j);
    DeadForever(f, run, sid, j + 1, n);
  }

  // ---- Lifetimes -------------------------------------------------------------------

  lemma AbsoluteStep(f: Families, s: Step, sid: string)
    requires sid in f.grants && sid in Apply(f, s).grants && !Created(f, s, sid)
    ensures Apply(f, s).grants[sid].absoluteExpiry <= f.grants[sid].absoluteExpiry
    ensures Apply(f, s).grants[sid].profile == f.grants[sid].profile
  {
    if Quiet(s) {
      QuietRow(f, s);
    } else if s.Complete? || s.Rotate? {
      RotatingStep(f, s);
    }
  }

  // No token of a family ever outlives the absolute expiry the family had at any earlier time.
  lemma {:induction false} FamilyLifetime(f: Families, run: seq<Step>, sid: string, i: nat, j: nat)
    requires Inv(f) && i <= j <= |run| && sid in After(f, run, j).grants
    requires NotRecreated(f, run, sid, i, j)
    ensures sid in After(f, run, i).grants
    ensures After(f, run, j).grants[sid].absoluteExpiry <= After(f, run, i).grants[sid].absoluteExpiry
    ensures After(f, run, j).grants[sid].profile == After(f, run, i).grants[sid].profile
    ensures forall h :: Live(After(f, run, j), h) && After(f, run, j).tokens[h].sid == sid ==>
      && After(f, run, j).tokens[h].expiresAt == After(f, run, j).grants[sid].idleExpiry
      && After(f, run, j).tokens[h].expiresAt <= After(f, run, i).grants[sid].absoluteExpiry
    decreases j
  {
    hide Apply, Created;
    InvRun(f, run, j);
    if i < j {
      GrantAppears(After(f, run, j - 1), run[j - 1], sid);
      InvRun(f, run, j - 1);
      FamilyLifetime(f, run, sid, i, j - 1);
      AbsoluteStep(After(f, run, j - 1), run[j - 1], sid);
    }
  }
}
