// The whole state database: transactions that span tables, and the cleanup batches.
module Database {
  import opened Common
  import opened RefreshFamilies
  import opened FlowTables
  import opened OtpTables

  datatype Db = Db(families: Families, flow: Flow, otp: Otp)

  datatype NewGrant = NewGrant(
    sid: string, profile: Profile, credential: Option<Sealed>, upstream: UpstreamExpiry, absoluteExpiry: int)

  datatype GrantAction = GrantAction(hash: Digest, sid: string)

  const GRANT_ACTION_BATCH := 5000

  // Consumes an unchanged code and, in the same transaction, creates the family it starts.
  function ConsumeAuthCode(
    db: Db, code: string, expected: AuthCode, binding: AuthCodeBinding, grant: Option<NewGrant>, m: RefreshMaterial,
    now: int)
    : (Db, Result<(), StoreError>)
  {
    if !CodeMatches(db.flow, code, expected, binding, now) then (db, Err(InvalidGrant))
    else
      var flow := db.flow.(codes := db.flow.codes - {code});
      match grant
      case None => (db.(flow := flow), Ok(()))
      case Some(g) =>
        var (families, created) := CreateGrant(db.families, g.sid, g.profile, g.credential, g.upstream,
          g.absoluteExpiry, m, now);
        if created.Err? then (db, created)
        else if g.profile.connectorId != "" && g.credential.Some? then
          (db.(families := families, flow := flow.(credentials := flow.credentials - {code})), Ok(()))
        else (db.(families := families, flow := flow), Ok(()))
  }

  // One INSERT of a batch of actions: every sid must exist and every hash must be new.
  predicate Insertable(db: Db, batch: seq<GrantAction>) {
    && (forall i :: 0 <= i < |batch| ==> batch[i].sid in db.families.grants && batch[i].hash !in db.flow.actions)
    && (forall i, j :: 0 <= i < j < |batch| ==> batch[i].hash != batch[j].hash)
  }

  function ActionRows(
    batch: seq<GrantAction>, email: string, action: string, now: int, expiry: int): map<Digest, Action>
  {
    if |batch| == 0 then map[]
    else ActionRows(batch[..|batch| - 1], email, action, now, expiry)
         [batch[|batch| - 1].hash := Action(email, batch[|batch| - 1].sid, action, now, expiry)]
  }

  function InsertActions(db: Db, batch: seq<GrantAction>, email: string, action: string, now: int, expiry: int)
    : (Db, Result<(), StoreError>)
  {
    if !Insertable(db, batch) then (db, Err(Storage))
    else (db.(flow := db.flow.(actions := db.flow.actions + ActionRows(batch, email, action, now, expiry))), Ok(()))
  }

  // CreateGrantActions: one statement per batch, stopping at the first that fails.
  function CreateGrantActions(db: Db, actions: seq<GrantAction>, email: string, action: string, now: int, expiry: int)
    : (Db, Result<(), StoreError>)
    decreases |actions|
  {
    if |actions| == 0 then (db, Ok(()))
    else
      var n := Min(|actions|, GRANT_ACTION_BATCH);
      var (db2, inserted) := InsertActions(db, actions[..n], email, action, now, expiry);
      if inserted.Err? then (db2, inserted) else CreateGrantActions(db2, actions[n..], email, action, now, expiry)
  }

  predicate ActionMatches(f: Flow, hash: Digest, email: string, sid: string, action: string, now: int) {
    && hash in f.actions && f.actions[hash].email == email && f.actions[hash].sid == sid
    && f.actions[hash].action == action && now < f.actions[hash].expiresAt
  }

  function ConsumeGrantActionAndRevoke(db: Db, hash: Digest, email: string, sid: string, action: string, now: int)
    : (Db, Result<(), StoreError>)
  {
    if SelfRevocable(db.families, sid, email, now) && ActionMatches(db.flow, hash, email, sid, action, now) then
      (db.(families := RevokeOwn(db.families, sid, email, now), flow := db.flow.(actions := db.flow.actions - {hash})),
        Ok(()))
    else (db, Err(InvalidGrant))
  }

  // The rows one pass of cleanup picks, out of all that are eligible.
  datatype Sweep = Sweep(
    states: set<string>, codes: set<string>, credentials: set<string>, selections: set<Digest>, actions: set<Digest>,
    pushed: set<string>, challenges: set<string>, sends: set<nat>, grants: set<string>)

  // Each table's batch has its own expiry test; deleting a grant deletes its tokens and actions.
  function CleanUp(db: Db, s: Sweep, now: int): Db {
    var f := db.flow;
    var families := RefreshFamilies.DeleteExpired(db.families, s.grants, now);
    Db(families,
       f.(states := PruneStates(f.states, s.states, now),
          codes := PruneCodes(f.codes, s.codes, now),
          credentials := PruneCredentials(f.credentials, s.credentials, now),
          selections := PruneSelections(f.selections, s.selections, now),
          actions := WithoutActionsOf(PruneActions(f.actions, s.actions, now),
            db.families.grants.Keys - families.grants.Keys),
          pushed := PrunePushed(f.pushed, s.pushed, now)),
       OtpTables.DeleteExpired(db.otp, s.challenges, s.sends, now))
  }
}
