// Access and ID tokens over the life of a family: whether they come from a code or from a rotation,
// none outlives the refresh token it is issued with, the upstream login known then, or the absolute
// expiry the family began with.
module TokenLifetimes {
  import opened Common
  import opened RefreshFamilies
  import opened FlowTables
  import opened Database
  import opened RefreshTheorems
  import opened RefreshReplay
  import Refresh = RefreshService
  import Code = CodeExchange

  // Tokens handed out for a family together with the refresh token of handle h.
  datatype Issuance = Issuance(access: int, idToken: int, h: Digest)

  // The row of the refresh token is there, and every limit of the family at that time is kept.
  predicate Backed(f: Families, sid: string, i: Issuance) {
    && Live(f, i.h) && f.tokens[i.h].sid == sid && sid in f.grants
    && i.access <= f.tokens[i.h].expiresAt && i.idToken <= f.tokens[i.h].expiresAt
    && f.tokens[i.h].expiresAt <= f.grants[sid].absoluteExpiry
  }

  predicate WithinLogin(f: Families, sid: string, i: Issuance) {
    sid in f.grants && f.grants[sid].upstream.access.Some? ==>
      var login := f.grants[sid].upstream.access.value;
      i.access <= login && i.idToken <= login
  }

  lemma RotationBacks(
    f: Families, o: Refresh.Outcome, h: Digest, sid: string, bound: int, now: int, credential: Credential)
    requires Refresh.SafelyIssued(f, o, h, sid, bound, now)
    ensures Backed(f, sid, Issuance(o.accessExpiry, o.idExpiry, o.token.handleHash))
    ensures Refresh.CredentialCarried(f, o, sid, credential) ==>
      WithinLogin(f, sid, Issuance(o.accessExpiry, o.idExpiry, o.token.handleHash))
  {
  }

  lemma CodeBacks(before: Db, after: Db, o: Code.Reply, c: AuthCode, life: Code.Lifetime, at: int)
    requires Code.FamilyStarted(before, after, o, c, life, at)
    ensures Backed(after.families, o.sid, Issuance(o.accessExpiry, o.idExpiry, o.refresh.value.handleHash))
    ensures WithinLogin(after.families, o.sid, Issuance(o.accessExpiry, o.idExpiry, o.refresh.value.handleHash))
  {
  }

  lemma FirstAbsolute(f: Families, run: seq<Step>, sid: string, i: nat)
    requires i < |run| && Created(After(f, run, i), run[i], sid)
    ensures sid in After(f, run, i + 1).grants
    ensures After(f, run, i + 1).grants[sid].absoluteExpiry == run[i].absoluteExpiry
  {
  }

  lemma BackedEnds(f: Families, sid: string, i: Issuance, bound: int)
    requires Backed(f, sid, i)
    requires forall h :: Live(f, h) && f.tokens[h].sid == sid ==> f.tokens[h].expiresAt <= bound
    ensures i.access <= bound && i.idToken <= bound && f.tokens[i.h].expiresAt <= bound
  {
  }

  // Created at step i and not again before step k, a family has no tokens, whoever issued them at
  // step k and by which way, that outlive the absolute expiry it was created with.
  lemma NothingOutlives(f: Families, run: seq<Step>, sid: string, i: nat, k: nat, issued: Issuance)
    requires Inv(f) && i < k <= |run| && Created(After(f, run, i), run[i], sid)
    requires NotRecreated(f, run, sid, i + 1, k) && Backed(After(f, run, k), sid, issued)
    ensures issued.access <= run[i].absoluteExpiry && issued.idToken <= run[i].absoluteExpiry
    ensures After(f, run, k).tokens[issued.h].expiresAt <= run[i].absoluteExpiry
  {
    hide *;
    BackedHolds(After(f, run, k), sid, issued);
    FirstAbsolute(f, run, sid, i);
    FamilyLifetime(f, run, sid, i + 1, k);
    BackedEnds(After(f, run, k), sid, issued, After(f, run, i + 1).grants[sid].absoluteExpiry);
  }

  lemma BackedHolds(f: Families, sid: string, i: Issuance)
    requires Backed(f, sid, i)
    ensures sid in f.grants && i.h in f.tokens
  {
  }
}
