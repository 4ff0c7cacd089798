// What revocation and grant management promise: internal/statedb/revocation.go and grants.go.
module GrantTheorems {
  import opened Common
  import opened RefreshFamilies
  import opened RefreshTheorems
  import opened RefreshReplay
  import opened FlowTables
  import opened Database

  // The family a presented credential belongs to.
  function FamilyOf(f: Families, c: RevocationCredential): Option<string> {
    match c.refresh
    case Some(m) => if Joined(f, m.handleHash) && f.tokens[m.handleHash].tokenHash == m.tokenHash then
      Some(f.tokens[m.handleHash].sid) else None
    case None => if c.sid != "" && c.sid in f.grants then Some(c.sid) else None
  }

  // The credential is still good: its family is active, and a refresh token is the current one.
  predicate Usable(f: Families, c: RevocationCredential, sid: string, now: int)
    requires sid in f.grants
  {
    var g := f.grants[sid];
    && g.revoked.None? && now < g.idleExpiry && now < g.absoluteExpiry
    && (c.refresh.Some? && c.refresh.value.handleHash in f.tokens ==>
          f.tokens[c.refresh.value.handleHash].consumedAt.None? && now < f.tokens[c.refresh.value.handleHash].expiresAt)
  }

  // A credential revokes its own family and no other, exactly if it is still good, the client is
  // the family's, the proof is for the family's key (no proof for a family without one), and an
  // access token's own key agrees where that is asked for.
  lemma RevocationExact(
    f: Families, c: RevocationCredential, clientId: string, proofJkt: string, reason: string, now: int)
    ensures var f2, family := RevokeCredential(f, c, clientId, proofJkt, reason, now), FamilyOf(f, c);
      && f2.tokens == f.tokens && f2.grants.Keys == f.grants.Keys
      && (forall s :: s in f.grants && family != Some(s) ==> f2.grants[s] == f.grants[s])
      && (family.Some? ==>
            var g := f.grants[family.value];
            var entitled :=
              && Usable(f, c, family.value, now) && g.profile.clientId == clientId && g.profile.dpopJkt == proofJkt
              && (proofJkt == "" ==> c.tokenJkt == "")
              && (proofJkt != "" && c.refresh.None? && c.requireTokenBinding ==> c.tokenJkt == proofJkt);
            f2.grants[family.value] == if entitled then g.(revoked := Some(Revocation(now, reason))) else g)
  {
  }

  // Presenting the same credential again changes nothing more.
  lemma RevocationIdempotent(
    f: Families, c: RevocationCredential, clientId: string, proofJkt: string, reason: string, now: int, again: string,
    later: int)
    ensures var f2 := RevokeCredential(f, c, clientId, proofJkt, reason, now);
      f2 != f ==> RevokeCredential(f2, c, clientId, proofJkt, again, later) == f2
  {
    RevocationExact(f, c, clientId, proofJkt, reason, now);
    var f2 := RevokeCredential(f, c, clientId, proofJkt, reason, now);
    RevocationExact(f2, c, clientId, proofJkt, again, later);
    var f3 := RevokeCredential(f2, c, clientId, proofJkt, again, later);
    if f2 != f {
      assert f2.grants != f.grants;
      assert FamilyOf(f2, c) == FamilyOf(f, c);
      assert f3.grants == f2.grants;
    }
  }

  // A self-service action works once: it is spent in the transaction that revokes the family, and
  // whatever is done to families from then on, no action of anyone ever revokes that family again.
  lemma ActionOnce(
    db: Db, hash: Digest, email: string, sid: string, action: string, now: int, run: seq<Step>, later: Db,
    other: Digest, again: string, kind: string, t: int)
    requires ConsumeGrantActionAndRevoke(db, hash, email, sid, action, now).1.Ok?
    requires var f := ConsumeGrantActionAndRevoke(db, hash, email, sid, action, now).0.families;
      later.families == After(f, run, |run|) && NotRecreated(f, run, sid, 0, |run|)
    ensures var db2 := ConsumeGrantActionAndRevoke(db, hash, email, sid, action, now).0;
      && hash !in db2.flow.actions && db.families.grants[sid].revoked.None?
      && db2.families.grants[sid] == db.families.grants[sid].(revoked := Some(Revocation(now, "self_service")))
    ensures sid in later.families.grants ==> later.families.grants[sid].revoked == Some(Revocation(now, "self_service"))
    ensures ConsumeGrantActionAndRevoke(later, other, again, sid, kind, t) == (later, Err(InvalidGrant))
  {
    var f := ConsumeGrantActionAndRevoke(db, hash, email, sid, action, now).0.families;
    assert Dead(f, sid);
    DeadForever(f, run, sid, 0, |run|);
    hide After;
  }

  lemma {:induction false} RowsJoin(
    a: seq<GrantAction>, b: seq<GrantAction>, email: string, action: string, now: int, expiry: int)
    ensures ActionRows(a + b, email, action, now, expiry)
      == ActionRows(a, email, action, now, expiry) + ActionRows(b, email, action, now, expiry)
  {
    if |b| == 0 {
      assert a + b == a;
    } else {
      assert (a + b)[..|a + b| - 1] == a + b[..|b| - 1];
      RowsJoin(a, b[..|b| - 1], email, action, now, expiry);
    }
  }

  // The first k actions, added to what was there.
  function WithFirst(
    db: Db, actions: seq<GrantAction>, k: nat, email: string, action: string, now: int, expiry: int): Db
    requires k <= |actions|
  {
    db.(flow := db.flow.(actions := db.flow.actions + ActionRows(actions[..k], email, action, now, expiry)))
  }

  lemma NoneAdded(db: Db, actions: seq<GrantAction>, email: string, action: string, now: int, expiry: int)
    ensures WithFirst(db, actions, 0, email, action, now, expiry) == db
  {
    assert db.flow.actions + map[] == db.flow.actions;
  }

  // A first batch and then k more are n + k actions.
  lemma BatchThenRest(
    db: Db, actions: seq<GrantAction>, n: nat, k: nat, email: string, action: string, now: int, expiry: int)
    requires n <= |actions| && k <= |actions| - n
    ensures WithFirst(WithFirst(db, actions, n, email, action, now, expiry), actions[n..], k, email, action, now,
      expiry)
         == WithFirst(db, actions, n + k, email, action, now, expiry)
  {
    var head, tail := actions[..n], actions[n..][..k];
    assert actions[n..n + k] == tail;
    assert actions[..n + k] == head + actions[n..n + k];
    RowsJoin(head, tail, email, action, now, expiry);
    hide ActionRows;
    var a, b := ActionRows(head, email, action, now, expiry), ActionRows(tail, email, action, now, expiry);
    assert db.flow.actions + a + b == db.flow.actions + (a + b);
  }

  predicate WholeBatches(k: nat) {
    k % GRANT_ACTION_BATCH == 0
  }

  lemma OneMoreBatch(k: nat)
    ensures WholeBatches(k) <==> WholeBatches(GRANT_ACTION_BATCH + k)
  {
  }

  // Actions are inserted batch by batch, each batch on its own: what is there afterwards are the
  // first k of them, all if the call succeeds, and otherwise whole batches up to the one that failed.
  lemma {:induction false} BatchesInserted(
    db: Db, actions: seq<GrantAction>, email: string, action: string, now: int, expiry: int)
    returns (k: nat)
    ensures k <= |actions|
    ensures var (db2, r) := CreateGrantActions(db, actions, email, action, now, expiry);
      && db2 == WithFirst(db, actions, k, email, action, now, expiry)
      && (r.Ok? <==> k == |actions|) && (r.Err? ==> WholeBatches(k))
    decreases |actions|
  {
    var n := Min(|actions|, GRANT_ACTION_BATCH);
    assert InsertActions(db, actions[..n], email, action, now, expiry).1.Ok? ==>
      InsertActions(db, actions[..n], email, action, now, expiry).0
        == WithFirst(db, actions, n, email, action, now, expiry);
    NoneAdded(db, actions, email, action, now, expiry);
    OneMoreBatch(0);
    hide ActionRows, Insertable, WithFirst, WholeBatches;
    if |actions| == 0 {
      return 0;
    }
    var (db2, inserted) := InsertActions(db, actions[..n], email, action, now, expiry);
    if inserted.Err? {
      return 0;
    }
    hide InsertActions;
    var rest := BatchesInserted(db2, actions[n..], email, action, now, expiry);
    k := n + rest;
    OneMoreBatch(rest);
    BatchThenRest(db, actions, n, rest, email, action, now, expiry);
  }

  // Each action is for a family that is there, under a hash that is new.
  ghost predicate Storable(db: Db, actions: seq<GrantAction>) {
    && (forall i :: 0 <= i < |actions| ==>
          actions[i].sid in db.families.grants && actions[i].hash !in db.flow.actions)
    && (forall i, j :: 0 <= i < j < |actions| ==> actions[i].hash != actions[j].hash)
  }

  lemma StorableSplits(
    db: Db, db2: Db, actions: seq<GrantAction>, n: nat, email: string, action: string, now: int, expiry: int)
    requires n <= |actions| && Storable(db, actions[..n])
    requires db2 == db.(flow := db.flow.(actions :=
      db.flow.actions + ActionRows(actions[..n], email, action, now, expiry)))
    ensures Storable(db, actions) <==> Storable(db2, actions[n..])
  {
    var head, tail := actions[..n], actions[n..];
    assert actions == head + tail;
    forall i | 0 <= i < |tail|
      ensures tail[i].hash in ActionRows(head, email, action, now, expiry) <==>
        exists j :: 0 <= j < n && head[j].hash == tail[i].hash
    {
      if tail[i].hash in ActionRows(head, email, action, now, expiry) {
        RowHashes(head, email, action, now, expiry, tail[i].hash);
      }
      if j :| 0 <= j < n && head[j].hash == tail[i].hash {
        RowOf(head, j, email, action, now, expiry);
      }
    }
    forall i, j | 0 <= i < j < |actions| && Storable(db2, tail) ensures actions[i].hash != actions[j].hash {
      if i >= n {
        assert tail[i - n].hash != tail[j - n].hash;
      } else if j >= n {
        assert head[i].hash == actions[i].hash && tail[j - n].hash == actions[j].hash;
      } else {
        assert head[i].hash != head[j].hash;
      }
    }
    forall i | 0 <= i < |tail| && Storable(db, actions) ensures tail[i].hash !in db2.flow.actions {
      assert actions[n + i] == tail[i];
      assert forall j :: 0 <= j < n ==> head[j] == actions[j];
    }
  }

  // All actions are stored exactly if each of them can be, however many batches that takes.
  lemma {:induction false} StoredExactly(
    db: Db, actions: seq<GrantAction>, email: string, action: string, now: int, expiry: int)
    ensures CreateGrantActions(db, actions, email, action, now, expiry).1.Ok? <==> Storable(db, actions)
    decreases |actions|
  {
    if |actions| > 0 {
      var n := Min(|actions|, 5000);
      if Storable(db, actions[..n]) {
        var db2 := InsertActions(db, actions[..n], email, action, now, expiry).0;
        StorableSplits(db, db2, actions, n, email, action, now, expiry);
        StoredExactly(db2, actions[n..], email, action, now, expiry);
      } else if Storable(db, actions) {
        assert Storable(db, actions[..n]);
      }
    }
  }

  // ---- From creation to use ------------------------------------------------------------------------

  lemma {:induction false} RowOf(batch: seq<GrantAction>, i: nat, email: string, action: string, now: int, expiry: int)
    requires i < |batch| && forall j, k :: 0 <= j < k < |batch| ==> batch[j].hash != batch[k].hash
    ensures var rows := ActionRows(batch, email, action, now, expiry);
      batch[i].hash in rows && rows[batch[i].hash] == Action(email, batch[i].sid, action, now, expiry)
  {
    if i < |batch| - 1 {
      RowOf(batch[..|batch| - 1], i, email, action, now, expiry);
    }
  }

  lemma {:induction false} RowHashes(
    batch: seq<GrantAction>, email: string, action: string, now: int, expiry: int, hash: Digest)
    requires hash in ActionRows(batch, email, action, now, expiry)
    ensures exists i :: 0 <= i < |batch| && batch[i].hash == hash
  {
    if batch[|batch| - 1].hash != hash {
      RowHashes(batch[..|batch| - 1], email, action, now, expiry, hash);
    }
  }

  // One batch keeps the families and every action that was there before.
  lemma BatchKeeps(db: Db, batch: seq<GrantAction>, email: string, action: string, now: int, expiry: int, hash: Digest)
    ensures var db2 := InsertActions(db, batch, email, action, now, expiry).0;
      && db2.families == db.families
      && (hash in db.flow.actions ==> hash in db2.flow.actions && db2.flow.actions[hash] == db.flow.actions[hash])
  {
    if Insertable(db, batch) && hash in db.flow.actions && hash in ActionRows(batch, email, action, now, expiry) {
      RowHashes(batch, email, action, now, expiry, hash);
    }
  }

  lemma {:induction false} CallKeeps(
    db: Db, actions: seq<GrantAction>, email: string, action: string, now: int, expiry: int, hash: Digest)
    ensures var db2 := CreateGrantActions(db, actions, email, action, now, expiry).0;
      && db2.families == db.families
      && (hash in db.flow.actions ==> hash in db2.flow.actions && db2.flow.actions[hash] == db.flow.actions[hash])
    decreases |actions|
  {
    if |actions| > 0 {
      var n := Min(|actions|, GRANT_ACTION_BATCH);
      BatchKeeps(db, actions[..n], email, action, now, expiry, hash);
      hide InsertActions;
      CallKeeps(InsertActions(db, actions[..n], email, action, now, expiry).0, actions[n..], email, action, now, expiry,
        hash);
    }
  }

  lemma {:induction false} ActionStored(
    db: Db, actions: seq<GrantAction>, i: nat, email: string, action: string, now: int, expiry: int)
    requires i < |actions| && CreateGrantActions(db, actions, email, action, now, expiry).1.Ok?
    ensures var db2 := CreateGrantActions(db, actions, email, action, now, expiry).0;
      && db2.families == db.families && actions[i].hash in db2.flow.actions
      && db2.flow.actions[actions[i].hash] == Action(email, actions[i].sid, action, now, expiry)
    decreases |actions|
  {
    var n := Min(|actions|, GRANT_ACTION_BATCH);
    var batch, hash := actions[..n], actions[i].hash;
    var db2 := InsertActions(db, batch, email, action, now, expiry).0;
    BatchKeeps(db, batch, email, action, now, expiry, hash);
    if i < n {
      FirstBatchStored(db, batch, i, email, action, now, expiry);
      hide InsertActions;
      CallKeeps(db2, actions[n..], email, action, now, expiry, hash);
    } else {
      hide InsertActions;
      ActionStored(db2, actions[n..], i - n, email, action, now, expiry);
    }
  }

  lemma FirstBatchStored(db: Db, batch: seq<GrantAction>, i: nat, email: string, action: string, now: int, expiry: int)
    requires i < |batch| && InsertActions(db, batch, email, action, now, expiry).1.Ok?
    ensures var db2 := InsertActions(db, batch, email, action, now, expiry).0;
      batch[i].hash in db2.flow.actions
        && db2.flow.actions[batch[i].hash] == Action(email, batch[i].sid, action, now, expiry)
  {
    RowOf(batch, i, email, action, now, expiry);
  }

  // An action that was created can be used exactly by its address, for its own family and kind,
  // until it expires, and only while that family is the address's own and active.
  lemma ActionUsable(
    db: Db, actions: seq<GrantAction>, i: nat, email: string, action: string, now: int, expiry: int,
    who: string, sid: string, kind: string, t: int)
    requires i < |actions| && CreateGrantActions(db, actions, email, action, now, expiry).1.Ok?
    ensures var db2 := CreateGrantActions(db, actions, email, action, now, expiry).0;
      ConsumeGrantActionAndRevoke(db2, actions[i].hash, who, sid, kind, t).1.Ok? <==>
        && who == email && sid == actions[i].sid && kind == action && t < expiry
        && SelfRevocable(db.families, sid, who, t)
  {
    ActionStored(db, actions, i, email, action, now, expiry);
    hide CreateGrantActions;
  }
}
