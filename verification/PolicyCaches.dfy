// The client cache of the policy resolver in internal/authpolicy/postgresql.go: definitive lookups
// with a time to live.
module PolicyCaches {
  import opened Common
  import opened LruCache

  datatype Lookup = Lookup(exists_: bool, expires: int)

  type Recency = seq<Entry<string, Lookup>>

  // The first locked section of clientExists: a fresh entry is a hit and comes first, a stale one goes.
  function Asked(s: Recency, id: string, now: int): (Recency, Option<bool>) {
    match Find(s, id)
    case None => (s, None)
    case Some(e) =>
      if now < e.expires then (Fronted(s, Entry(id, e)), Some(e.exists_)) else (Without(s, id), None)
  }

  function Put(s: Recency, maxEntries: nat, id: string, value: bool, expires: int): Recency {
    First(Fronted(s, Entry(id, Lookup(value, expires))), maxEntries)
  }

  datatype Reply = Row(value: bool, at: int) | Indeterminate

  class ClientCache {
    const lru: Lru<string, Lookup>
    const maxEntries: nat
    const ttl: int
    const negativeTtl: int

    constructor (maxEntries: nat, ttl: int, negativeTtl: int)
      ensures fresh(lru) && lru.Valid() && lru.Contents() == []
      ensures this.maxEntries == maxEntries && this.ttl == ttl && this.negativeTtl == negativeTtl
    {
      lru := new Lru();
      this.maxEntries, this.ttl, this.negativeTtl := maxEntries, ttl, negativeTtl;
    }

    method PutClient(id: string, value: bool, expires: int)
      requires lru.Valid()
      modifies lru
      ensures lru.Valid() && lru.Contents() == Put(old(lru.Contents()), maxEntries, id, value, expires)
    {
      ghost var s := lru.Contents();
      lru.Found(id);
      WithoutKeeps(s, id, id) by { lru.KeysDistinct(); }
      if id in lru.index {
        lru.Remove(lru.index[id]);
      }
      lru.Found(id);
      lru.PushFront(Entry(id, Lookup(value, expires)));
      lru.Trim(maxEntries);
    }

    // clientExists: the cache, and on a miss or a bypass the database's reply. Only a cached
    // lookup fills the cache, and only with a definitive answer.
    method ClientExists(id: string, cached: bool, now: int, reply: Reply) returns (r: Option<bool>, hit: bool)
      requires lru.Valid()
      modifies lru
      ensures lru.Valid()
      ensures hit <==> cached && Asked(old(lru.Contents()), id, now).1.Some?
      ensures hit ==> (lru.Contents(), r) == Asked(old(lru.Contents()), id, now)
      ensures !hit ==> r == (if reply.Row? then Some(reply.value) else None)
      ensures !hit && cached ==>
        lru.Contents() ==
        if reply.Row? then
          Put(Asked(old(lru.Contents()), id, now).0, maxEntries, id, reply.value, reply.at + if reply.value then
            ttl else negativeTtl)
        else Asked(old(lru.Contents()), id, now).0
      ensures !cached ==> lru.Contents() == old(lru.Contents())
    {
      hit := false;
      lru.Found(id);
      if cached && id in lru.index {
        var element := lru.index[id];
        var entry := lru.elements[element];
        if now < entry.value.expires {
          lru.MoveToFront(element);
          return Some(entry.value.exists_), true;
        }
        lru.Remove(element);
      }
      if reply.Indeterminate? {
        return None, false;
      }
      var expires := reply.at + negativeTtl;
      if reply.value {
        expires := reply.at + ttl;
      }
      if cached {
        PutClient(id, reply.value, expires);
      }
      return Some(reply.value), false;
    }
  }

  // ---- Every run of client lookups ------------------------------------------------------------------

  // The locked sections of any number of concurrent lookups, in the order they took the lock.
  datatype ClientOp = Ask(id: string, now: int) | Fill(id: string, value: bool, at: int, ttl: int)

  function ClientStep(s: Recency, maxEntries: nat, op: ClientOp): Recency {
    match op
    case Ask(id, now) => Asked(s, id, now).0
    case Fill(id, value, at, ttl) => Put(s, maxEntries, id, value, at + ttl)
  }

  function Clients(maxEntries: nat, ops: seq<ClientOp>, n: nat): Recency
    requires n <= |ops|
  {
    if n == 0 then [] else ClientStep(Clients(maxEntries, ops, n - 1), maxEntries, ops[n - 1])
  }

  // A step uses its key when it fills it or finds it fresh.
  function Used(s: Recency, op: ClientOp): seq<string> {
    if op.Fill? || Asked(s, op.id, op.now).1.Some? then [op.id] else []
  }

  function UseLog(maxEntries: nat, ops: seq<ClientOp>, n: nat): seq<string>
    requires n <= |ops|
  {
    if n == 0 then [] else UseLog(maxEntries, ops, n - 1) + Used(Clients(maxEntries, ops, n - 1), ops[n - 1])
  }

  lemma StepBounded(s: Recency, maxEntries: nat, op: ClientOp)
    requires Distinct(s) && |s| <= maxEntries
    ensures Distinct(ClientStep(s, maxEntries, op)) && |ClientStep(s, maxEntries, op)| <= maxEntries
  {
    WithoutKeeps(s, op.id, op.id);
    WithoutDistinct(s, op.id);
    if op.Fill? || Asked(s, op.id, op.now).1.Some? {
      var e := if op.Fill? then Entry(op.id, Lookup(op.value, op.at + op.ttl)) else Entry(op.id, Find(s, op.id).value);
      FrontedDistinct(s, e);
    }
  }

  lemma FrontedDistinct(s: Recency, e: Entry<string, Lookup>)
    requires Distinct(s)
    ensures Distinct(Fronted(s, e))
  {
    WithoutDistinct(s, e.key);
    forall x | x in Without(s, e.key) ensures x.key != e.key {
      WithoutMember(s, e.key, x);
    }
    ConsDistinct(e, Without(s, e.key));
  }

  // No key twice, and never more than the configured number of entries.
  lemma {:induction false} ClientsBounded(maxEntries: nat, ops: seq<ClientOp>, n: nat)
    requires n <= |ops|
    ensures Distinct(Clients(maxEntries, ops, n)) && |Clients(maxEntries, ops, n)| <= maxEntries
  {
    if n > 0 {
      ClientsBounded(maxEntries, ops, n - 1);
      StepBounded(Clients(maxEntries, ops, n - 1), maxEntries, ops[n - 1]);
    }
  }

  // Whatever a step leaves was there before, unless it is the step's own fill.
  lemma StepEntry(s: Recency, maxEntries: nat, op: ClientOp, e: Entry<string, Lookup>)
    requires e in ClientStep(s, maxEntries, op)
    ensures (op.Fill? && e == Entry(op.id, Lookup(op.value, op.at + op.ttl))) || (e in s && (op.Fill? ==>
      e.key != op.id))
  {
    WithoutMember(s, op.id, e);
    FindMember(s, op.id);
  }

  // A hit is the answer of the last lookup that filled the key, less than its time to live ago.
  lemma {:induction false} EntryFilled(
    maxEntries: nat, ops: seq<ClientOp>, n: nat, e: Entry<string, Lookup>) returns (m: nat)
    requires n <= |ops| && e in Clients(maxEntries, ops, n)
    ensures m < n && ops[m].Fill? && ops[m].id == e.key && e.value == Lookup(ops[m].value, ops[m].at + ops[m].ttl)
    ensures forall k :: m < k < n && ops[k].Fill? ==> ops[k].id != e.key
  {
    var s, op := Clients(maxEntries, ops, n - 1), ops[n - 1];
    StepEntry(s, maxEntries, op, e);
    if op.Fill? && e == Entry(op.id, Lookup(op.value, op.at + op.ttl)) {
      m := n - 1;
    } else {
      m := EntryFilled(maxEntries, ops, n - 1, e);
    }
  }

  lemma HitIsFresh(maxEntries: nat, ops: seq<ClientOp>, n: nat, id: string, now: int) returns (m: nat)
    requires n <= |ops| && Asked(Clients(maxEntries, ops, n), id, now).1.Some?
    ensures m < n && ops[m].Fill? && ops[m].id == id && now < ops[m].at + ops[m].ttl
    ensures Asked(Clients(maxEntries, ops, n), id, now).1 == Some(ops[m].value)
    ensures forall k :: m < k < n && ops[k].Fill? ==> ops[k].id != id
  {
    var s := Clients(maxEntries, ops, n);
    FindMember(s, id);
    m := EntryFilled(maxEntries, ops, n, Entry(id, Find(s, id).value));
  }

  // A lookup that fills its key leaves it in the cache, and as long as it is there with that answer,
  // it is a hit exactly until its time to live is over.
  lemma FilledIsHit(maxEntries: nat, ops: seq<ClientOp>, m: nat, n: nat, id: string, now: int)
    requires maxEntries > 0 && m < n <= |ops| && ops[m].Fill? && ops[m].id == id
    requires forall k :: m < k < n && ops[k].Fill? ==> ops[k].id != id
    ensures Find(Clients(maxEntries, ops, m + 1), id).Some?
    ensures Find(Clients(maxEntries, ops, n), id).Some? ==>
      (Asked(Clients(maxEntries, ops, n), id, now).1 == Some(ops[m].value) <==> now < ops[m].at + ops[m].ttl)
  {
    FilledIsFound(Clients(maxEntries, ops, m), maxEntries, ops[m]);
    var s := Clients(maxEntries, ops, n);
    FindMember(s, id);
    if Find(s, id).Some? {
      var k := EntryFilled(maxEntries, ops, n, Entry(id, Find(s, id).value));
      assert k >= m;
    }
  }

  lemma FilledIsFound(s: Recency, maxEntries: nat, op: ClientOp)
    requires maxEntries > 0 && op.Fill?
    ensures Find(ClientStep(s, maxEntries, op), op.id) == Some(Lookup(op.value, op.at + op.ttl))
  {
  }

  lemma StepByUse(s: Recency, log: seq<string>, maxEntries: nat, op: ClientOp)
    requires ByUse(s, log)
    ensures ByUse(ClientStep(s, maxEntries, op), log + Used(s, op))
  {
    WithoutByUse(s, log, op.id);
    assert log + [] == log;
    hide ByUse, Without;
    if op.Fill? || Asked(s, op.id, op.now).1.Some? {
      var e := if op.Fill? then Entry(op.id, Lookup(op.value, op.at + op.ttl)) else Entry(op.id, Find(s, op.id).value);
      UseKeepsOrder(s, log, e);
      FirstByUse(Fronted(s, e), log + [op.id], maxEntries);
    }
  }

  // The list is in the order of last use.
  lemma {:induction false} OrderedByUse(maxEntries: nat, ops: seq<ClientOp>, n: nat)
    requires n <= |ops|
    ensures ByUse(Clients(maxEntries, ops, n), UseLog(maxEntries, ops, n))
  {
    if n > 0 {
      OrderedByUse(maxEntries, ops, n - 1);
      StepByUse(Clients(maxEntries, ops, n - 1), UseLog(maxEntries, ops, n - 1), maxEntries, ops[n - 1]);
    }
  }

  // A key leaves only when it is looked up after its time, or when another key is filled while
  // the cache is full and no other key was used longer ago.
  lemma EvictsLeastRecentlyUsed(maxEntries: nat, ops: seq<ClientOp>, n: nat, key: string)
    requires n < |ops| && Find(Clients(maxEntries, ops, n), key).Some?
      && Find(Clients(maxEntries, ops, n + 1), key).None?
    ensures var s, log := Clients(maxEntries, ops, n), UseLog(maxEntries, ops, n);
      || (ops[n].Ask? && ops[n].id == key && Find(s, key).value.expires <= ops[n].now)
      || (&& ops[n].Fill? && ops[n].id != key && Find(s, ops[n].id).None? && |s| == maxEntries
          && forall e :: e in s && e.key != key ==> LastUse(log, key) < LastUse(log, e.key))
  {
    var s, op := Clients(maxEntries, ops, n), ops[n];
    ClientsBounded(maxEntries, ops, n);
    OrderedByUse(maxEntries, ops, n);
    if op.Ask? {
      AskDrops(s, op, key);
    } else {
      LeastRecentlyUsedLeaves(s, UseLog(maxEntries, ops, n), maxEntries, Entry(op.id, Lookup(op.value, op.at + op.ttl)),
        key);
    }
  }

  // A lookup drops no key but its own, and that only when it has expired.
  lemma AskDrops(s: Recency, op: ClientOp, key: string)
    requires Distinct(s) && op.Ask? && Find(s, key).Some? && Find(Asked(s, op.id, op.now).0, key).None?
    ensures op.id == key && Find(s, key).value.expires <= op.now
  {
    WithoutKeeps(s, op.id, key);
  }
}
