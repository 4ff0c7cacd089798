// compiledSchema of internal/authpolicy/postgresql.go: the schema cache, filled by at most one
// worker for each key at a time while the others wait for its result.
module SchemaFlights {
  import opened Common
  import opened LruCache

  // A cache key ends in the digest of the canonical schema, so it determines the schema.
  datatype Key = Key(prefix: string, digest: Digest)

  type Schema = nat

  type Schemas = seq<Entry<Key, Schema>>

  // CompileCanonicalSchema, whatever it does.
  type Compiler = Bytes -> Option<Schema>

  function KeyOf(prefix: string, canonical: Bytes): Key {
    Key(prefix, OfBytes(canonical))
  }

  // ---- The locked sections ----------------------------------------------------------------------

  function Touched(s: Schemas, key: Key): (Schemas, Option<Schema>) {
    match Find(s, key)
    case None => (s, None)
    case Some(schema) => (Fronted(s, Entry(key, schema)), Some(schema))
  }

  function Inserted(s: Schemas, maxEntries: nat, key: Key, schema: Schema): Schemas {
    First([Entry(key, schema)] + s, maxEntries)
  }

  class SchemaCache {
    const lru: Lru<Key, Schema>
    const maxEntries: nat

    constructor (maxEntries: nat)
      ensures fresh(lru) && lru.Valid() && lru.Contents() == [] && this.maxEntries == maxEntries
    {
      lru := new Lru();
      this.maxEntries := maxEntries;
    }

    method Touch(key: Key) returns (r: Option<Schema>)
      requires lru.Valid()
      modifies lru
      ensures lru.Valid() && (lru.Contents(), r) == Touched(old(lru.Contents()), key)
    {
      lru.Found(key);
      if key !in lru.index {
        return None;
      }
      r := Some(lru.elements[lru.index[key]].value);
      lru.MoveToFront(lru.index[key]);
    }

    // Only right while the key is absent: the old element would stay in the list with nothing
    // leading to it. InsertsAbsentKey shows that the flight makes sure of that.
    method Insert(key: Key, schema: Schema)
      requires lru.Valid() && Find(lru.Contents(), key).None?
      modifies lru
      ensures lru.Valid() && lru.Contents() == Inserted(old(lru.Contents()), maxEntries, key, schema)
    {
      lru.Found(key);
      lru.PushFront(Entry(key, schema));
      lru.Trim(maxEntries);
    }
  }

  // ---- Concurrent calls -------------------------------------------------------------------------

  datatype Stage =
    | Looking
    | Joining
    | Waiting
    | Checking
    | Compiling
    | Inserting(schema: Schema)
    | Landing(result: Option<Schema>)
    | Returned(result: Option<Schema>)

  datatype Call = Call(prefix: string, canonical: Bytes, stage: Stage)

  // flights names the worker that fills each key now.
  datatype Machine = Machine(cache: Schemas, flights: map<Key, nat>, calls: map<nat, Call>)

  datatype Step = Enter(w: nat, prefix: string, canonical: Bytes) | Advance(w: nat)

  function KeyOfCall(c: Call): Key {
    KeyOf(c.prefix, c.canonical)
  }

  predicate Leads(c: Call) {
    c.stage.Checking? || c.stage.Compiling? || c.stage.Inserting? || c.stage.Landing?
  }

  function At(m: Machine, w: nat, stage: Stage): Machine
    requires w in m.calls
  {
    m.(calls := m.calls[w := m.calls[w].(stage := stage)])
  }

  // The result of a flight reaches the worker that flew it and everyone who waited for it.
  function Land(m: Machine, w: nat, key: Key, result: Option<Schema>): Machine
    requires w in m.calls
  {
    Machine(m.cache, m.flights - {key},
            map v | v in m.calls ::
              if v == w || (m.calls[v].stage.Waiting? && KeyOfCall(m.calls[v]) == key)
              then m.calls[v].(stage := Returned(result)) else m.calls[v])
  }

  function Next(compile: Compiler, maxEntries: nat, m: Machine, s: Step): Machine {
    match s
    case Enter(w, prefix, canonical) =>
      if w in m.calls && !m.calls[w].stage.Returned? then
        m else m.(calls := m.calls[w := Call(prefix, canonical, Looking)])
    case Advance(w) =>
      if w !in m.calls then m
      else
        var key := KeyOfCall(m.calls[w]);
        match m.calls[w].stage
        case Looking =>
          var (cache, found) := Touched(m.cache, key);
          At(m.(cache := cache), w, if found.Some? then Returned(found) else Joining)
        case Joining =>
          if key in m.flights then At(m, w, Waiting) else At(m.(flights := m.flights[key := w]), w, Checking)
        case Checking =>
          var (cache, found) := Touched(m.cache, key);
          At(m.(cache := cache), w, if found.Some? then Landing(found) else Compiling)
        case Compiling =>
          var compiled := compile(m.calls[w].canonical);
          At(m, w, if compiled.None? then Landing(None) else Inserting(compiled.value))
        case Inserting(schema) =>
          At(m.(cache := Inserted(m.cache, maxEntries, key, schema)), w, Landing(Some(schema)))
        case Landing(result) => Land(m, w, key, result)
        case Waiting => m
        case Returned(_) => m
  }

  // ---- What every interleaving keeps ------------------------------------------------------------

  predicate Correct(compile: Compiler, e: Entry<Key, Schema>) {
    e.key.digest.OfBytes? && compile(e.key.digest.bytes) == Some(e.value)
  }

  ghost predicate CacheFits(compile: Compiler, maxEntries: nat, s: Schemas) {
    Distinct(s) && |s| <= maxEntries && forall e :: e in s ==> Correct(compile, e)
  }

  predicate CallFits(compile: Compiler, m: Machine, w: nat)
    requires w in m.calls
  {
    var c := m.calls[w];
    && (Leads(c) <==> KeyOfCall(c) in m.flights && m.flights[KeyOfCall(c)] == w)
    && (c.stage.Waiting? ==> KeyOfCall(c) in m.flights)
    && (c.stage.Compiling? || c.stage.Inserting? ==> Find(m.cache, KeyOfCall(c)).None?)
    && (c.stage.Inserting? ==> compile(c.canonical) == Some(c.stage.schema))
    && (c.stage.Landing? || c.stage.Returned? ==> c.stage.result == compile(c.canonical))
  }

  ghost predicate Inv(compile: Compiler, maxEntries: nat, m: Machine) {
    && CacheFits(compile, maxEntries, m.cache)
    && (forall w :: w in m.calls ==> CallFits(compile, m, w))
    && (forall k :: k in m.flights ==> m.flights[k] in m.calls && KeyOfCall(m.calls[m.flights[k]]) == k)
  }

  lemma TouchFits(compile: Compiler, maxEntries: nat, s: Schemas, key: Key)
    requires CacheFits(compile, maxEntries, s)
    ensures CacheFits(compile, maxEntries, Touched(s, key).0)
    ensures forall k :: Find(Touched(s, key).0, k) == Find(s, k)
    ensures Touched(s, key).1.Some? ==> Correct(compile, Entry(key, Touched(s, key).1.value))
  {
    FindMember(s, key);
    var rest := Without(s, key);
    WithoutKeeps(s, key, key);
    WithoutDistinct(s, key);
    if Find(s, key).Some? {
      var e := Entry(key, Find(s, key).value);
      forall x | x in rest ensures x in s && x.key != key {
        WithoutMember(s, key, x);
      }
      ConsDistinct(e, rest);
      forall k ensures Find([e] + rest, k) == Find(s, k) {
        WithoutKeeps(s, key, k);
        assert ([e] + rest)[1..] == rest;
      }
    }
  }

  lemma InsertFits(compile: Compiler, maxEntries: nat, s: Schemas, key: Key, schema: Schema)
    requires CacheFits(compile, maxEntries, s) && Find(s, key).None? && Correct(compile, Entry(key, schema))
    ensures CacheFits(compile, maxEntries, Inserted(s, maxEntries, key, schema))
    ensures forall k :: k != key && Find(s, k).None? ==> Find(Inserted(s, maxEntries, key, schema), k).None?
  {
    var e := Entry(key, schema);
    FindMember(s, key);
    ConsDistinct(e, s);
    var all := [e] + s;
    forall k | k != key && Find(s, k).None? ensures Find(First(all, maxEntries), k).None? {
      FindMember(s, k);
      FindMember(First(all, maxEntries), k);
    }
  }

  // A step of one worker's own, with the cache as it leaves it.
  lemma OwnStep(compile: Compiler, maxEntries: nat, m: Machine, n: Machine, w: nat)
    requires Inv(compile, maxEntries, m) && w in m.calls && w in n.calls && n.calls == m.calls[w := n.calls[w]]
    requires KeyOfCall(n.calls[w]) == KeyOfCall(m.calls[w]) && n.flights == m.flights
    requires CacheFits(compile, maxEntries, n.cache) && CallFits(compile, n, w)
    requires forall k :: k != KeyOfCall(m.calls[w]) && Find(m.cache, k).None? ==> Find(n.cache, k).None?
    requires Leads(m.calls[w]) || forall k :: Find(m.cache, k).None? ==> Find(n.cache, k).None?
    ensures Inv(compile, maxEntries, n)
  {
    hide CacheFits;
    forall v | v in n.calls ensures CallFits(compile, n, v) {
      if v != w {
        var key := KeyOfCall(m.calls[v]);
        assert CallFits(compile, m, v) && CallFits(compile, m, w);
        assert n.calls[v] == m.calls[v];
        assert Find(m.cache, key).None? && Leads(m.calls[v]) ==> Find(n.cache, key).None?;
      }
    }
  }

  lemma LandStep(compile: Compiler, maxEntries: nat, m: Machine, w: nat)
    requires Inv(compile, maxEntries, m) && w in m.calls && m.calls[w].stage.Landing?
    ensures Inv(compile, maxEntries, Land(m, w, KeyOfCall(m.calls[w]), m.calls[w].stage.result))
  {
    hide CacheFits;
    var key := KeyOfCall(m.calls[w]);
    var n := Land(m, w, key, m.calls[w].stage.result);
    assert CallFits(compile, m, w);
    forall v | v in n.calls ensures CallFits(compile, n, v) {
      assert CallFits(compile, m, v);
    }
  }

  lemma JoinStep(compile: Compiler, maxEntries: nat, m: Machine, w: nat)
    requires Inv(compile, maxEntries, m) && w in m.calls && m.calls[w].stage.Joining?
    ensures Inv(compile, maxEntries, Next(compile, maxEntries, m, Advance(w)))
  {
    hide CacheFits;
    var key, n := KeyOfCall(m.calls[w]), Next(compile, maxEntries, m, Advance(w));
    assert CallFits(compile, m, w);
    forall v | v in n.calls ensures CallFits(compile, n, v) {
      assert CallFits(compile, m, v);
    }
  }

  lemma InvStep(compile: Compiler, maxEntries: nat, m: Machine, s: Step)
    requires Inv(compile, maxEntries, m)
    ensures Inv(compile, maxEntries, Next(compile, maxEntries, m, s))
  {
    var n := Next(compile, maxEntries, m, s);
    match s
    case Enter(w, _, _) =>
      hide CacheFits;
      forall v | v in n.calls ensures CallFits(compile, n, v) {
        assert v in m.calls ==> CallFits(compile, m, v);
      }
    case Advance(w) =>
      if w in m.calls {
        var c := m.calls[w];
        var key := KeyOfCall(c);
        assert CallFits(compile, m, w);
        match c.stage
        case Looking =>
          TouchFits(compile, maxEntries, m.cache, key);
          OwnStep(compile, maxEntries, m, n, w);
        case Joining => JoinStep(compile, maxEntries, m, w);
        case Checking =>
          TouchFits(compile, maxEntries, m.cache, key);
          OwnStep(compile, maxEntries, m, n, w);
        case Compiling => OwnStep(compile, maxEntries, m, n, w);
        case Inserting(schema) =>
          InsertFits(compile, maxEntries, m.cache, key, schema);
          OwnStep(compile, maxEntries, m, n, w);
        case Landing(_) => LandStep(compile, maxEntries, m, w);
        case Waiting =>
        case Returned(_) =>
      }
  }

  function After(compile: Compiler, maxEntries: nat, steps: seq<Step>, n: nat): Machine
    requires n <= |steps|
  {
    if n == 0 then Machine([], map[], map[])
      else Next(compile, maxEntries, After(compile, maxEntries, steps, n - 1), steps[n - 1])
  }

  lemma {:induction false} ReachableInv(compile: Compiler, maxEntries: nat, steps: seq<Step>, n: nat)
    requires n <= |steps|
    ensures Inv(compile, maxEntries, After(compile, maxEntries, steps, n))
  {
    if n > 0 {
      ReachableInv(compile, maxEntries, steps, n - 1);
      hide Inv, Next;
      InvStep(compile, maxEntries, After(compile, maxEntries, steps, n - 1), steps[n - 1]);
    }
  }

  // However the calls interleave, each returns what compiling its own schema gives, from the
  // cache, from its own flight or from another's.
  lemma Transparent(compile: Compiler, maxEntries: nat, steps: seq<Step>, n: nat, w: nat)
    requires n <= |steps| && w in After(compile, maxEntries, steps, n).calls
    requires After(compile, maxEntries, steps, n).calls[w].stage.Returned?
    ensures var c := After(compile, maxEntries, steps, n).calls[w];
      c.stage.result == compile(c.canonical)
  {
    ReachableInv(compile, maxEntries, steps, n);
    hide After;
    assert CallFits(compile, After(compile, maxEntries, steps, n), w);
  }

  // The cache holds each key once, never more entries than configured, and nothing but compiled
  // schemas; and a schema is only ever inserted while its key is absent.
  lemma InsertsAbsentKey(compile: Compiler, maxEntries: nat, steps: seq<Step>, n: nat)
    requires n <= |steps|
    ensures var m := After(compile, maxEntries, steps, n);
      && CacheFits(compile, maxEntries, m.cache)
      && forall w :: w in m.calls && m.calls[w].stage.Inserting? ==> Find(m.cache, KeyOfCall(m.calls[w])).None?
  {
    ReachableInv(compile, maxEntries, steps, n);
    hide After, CacheFits;
    var m := After(compile, maxEntries, steps, n);
    forall w | w in m.calls && m.calls[w].stage.Inserting? ensures Find(m.cache, KeyOfCall(m.calls[w])).None? {
      assert CallFits(compile, m, w);
    }
  }

  // No two workers fill one key at the same time.
  lemma SingleFlight(compile: Compiler, maxEntries: nat, steps: seq<Step>, n: nat, v: nat, w: nat)
    requires n <= |steps|
    requires var m := After(compile, maxEntries, steps, n);
      v in m.calls && w in m.calls && v != w && Leads(m.calls[v]) && Leads(m.calls[w])
    ensures var m := After(compile, maxEntries, steps, n);
      KeyOfCall(m.calls[v]) != KeyOfCall(m.calls[w])
  {
    ReachableInv(compile, maxEntries, steps, n);
    hide After, CacheFits;
    var m := After(compile, maxEntries, steps, n);
    assert CallFits(compile, m, v) && CallFits(compile, m, w);
  }

  // ---- What the cache saves -----------------------------------------------------------------------

  // A schema that is cached is returned at once, without a flight; one that is compiled is cached;
  // and whoever finds a key in flight waits for it instead of compiling.
  lemma CacheIsUsed(compile: Compiler, maxEntries: nat, m: Machine, w: nat)
    requires w in m.calls
    ensures var c, n := m.calls[w], Next(compile, maxEntries, m, Advance(w));
      var key := KeyOfCall(c);
      && (c.stage.Looking? && Find(m.cache, key).Some? ==>
            n.calls[w].stage == Returned(Find(m.cache, key)) && n.flights == m.flights)
      && (c.stage.Checking? && Find(m.cache, key).Some? ==> n.calls[w].stage == Landing(Find(m.cache, key)))
      && (c.stage.Joining? && key in m.flights ==> n.calls[w].stage == Waiting && n.flights == m.flights)
      && (c.stage.Inserting? && maxEntries > 0 ==> Find(n.cache, key) == Some(c.stage.schema))
  {
  }

  // Whoever waits gets an answer when the flight lands, and the key is free for the next.
  lemma WaitersReturn(compile: Compiler, maxEntries: nat, m: Machine, w: nat, v: nat)
    requires Inv(compile, maxEntries, m) && w in m.calls && m.calls[w].stage.Landing?
    requires v in m.calls && m.calls[v].stage.Waiting? && KeyOfCall(m.calls[v]) == KeyOfCall(m.calls[w])
    ensures var n := Next(compile, maxEntries, m, Advance(w));
      && n.calls[v].stage == Returned(compile(m.calls[v].canonical))
      && n.calls[w].stage == Returned(compile(m.calls[w].canonical)) && KeyOfCall(m.calls[w]) !in n.flights
  {
    hide CacheFits;
    assert CallFits(compile, m, w);
  }

  // ---- Order of use -----------------------------------------------------------------------------

  // A step uses its key when it finds the schema or inserts it.
  function Used(m: Machine, s: Step): seq<Key> {
    if s.Advance? && s.w in m.calls then
      var c := m.calls[s.w];
      if ((c.stage.Looking? || c.stage.Checking?) && Find(m.cache, KeyOfCall(c)).Some?) || c.stage.Inserting? then
        [KeyOfCall(c)] else []
    else []
  }

  function UseLog(compile: Compiler, maxEntries: nat, steps: seq<Step>, n: nat): seq<Key>
    requires n <= |steps|
  {
    if n == 0 then []
    else UseLog(compile, maxEntries, steps, n - 1) + Used(After(compile, maxEntries, steps, n - 1), steps[n - 1])
  }

  // A step leaves the cache alone, puts the entry it used first, or inserts one for an absent key.
  lemma StepUses(compile: Compiler, maxEntries: nat, m: Machine, s: Step) returns (e: Option<Entry<Key, Schema>>)
    requires Inv(compile, maxEntries, m)
    ensures e.None? ==> Next(compile, maxEntries, m, s).cache == m.cache && Used(m, s) == []
    ensures e.Some? ==>
      && Next(compile, maxEntries, m, s).cache == First(Fronted(m.cache, e.value), maxEntries)
        && Used(m, s) == [e.value.key]
      && (Find(m.cache, e.value.key) == Some(e.value.value)
          || (Find(m.cache, e.value.key).None? && s.Advance? && s.w in m.calls && m.calls[s.w].stage.Inserting?))
  {
    e := None;
    if s.Advance? && s.w in m.calls {
      var c := m.calls[s.w];
      var key := KeyOfCall(c);
      assert CallFits(compile, m, s.w);
      WithoutKeeps(m.cache, key, key);
      if c.stage.Inserting? {
        e := Some(Entry(key, c.stage.schema));
      } else if (c.stage.Looking? || c.stage.Checking?) && Find(m.cache, key).Some? {
        e := Some(Entry(key, Find(m.cache, key).value));
      }
    }
  }

  // The list is in the order of last use.
  lemma {:induction false} OrderedByUse(compile: Compiler, maxEntries: nat, steps: seq<Step>, n: nat)
    requires n <= |steps|
    ensures ByUse(After(compile, maxEntries, steps, n).cache, UseLog(compile, maxEntries, steps, n))
  {
    if n > 0 {
      OrderedByUse(compile, maxEntries, steps, n - 1);
      ReachableInv(compile, maxEntries, steps, n - 1);
      var m, log := After(compile, maxEntries, steps, n - 1), UseLog(compile, maxEntries, steps, n - 1);
      var e := StepUses(compile, maxEntries, m, steps[n - 1]);
      hide Inv, Next, Used, ByUse;
      if e.Some? {
        UseKeepsOrder(m.cache, log, e.value);
        FirstByUse(Fronted(m.cache, e.value), log + [e.value.key], maxEntries);
      } else {
        assert log + [] == log;
      }
    }
  }

  // A schema leaves only when another is inserted while the cache is full and none was used longer ago.
  lemma EvictsLeastRecentlyUsed(compile: Compiler, maxEntries: nat, steps: seq<Step>, n: nat, key: Key)
    requires n < |steps| && Find(After(compile, maxEntries, steps, n).cache, key).Some?
    requires Find(After(compile, maxEntries, steps, n + 1).cache, key).None?
    ensures var m, log := After(compile, maxEntries, steps, n), UseLog(compile, maxEntries, steps, n);
      && steps[n].Advance? && steps[n].w in m.calls && m.calls[steps[n].w].stage.Inserting?
      && KeyOfCall(m.calls[steps[n].w]) != key && |m.cache| == maxEntries
      && forall e :: e in m.cache && e.key != key ==> LastUse(log, key) < LastUse(log, e.key)
  {
    var m, log := After(compile, maxEntries, steps, n), UseLog(compile, maxEntries, steps, n);
    ReachableInv(compile, maxEntries, steps, n);
    OrderedByUse(compile, maxEntries, steps, n);
    var e := StepUses(compile, maxEntries, m, steps[n]);
    assert Distinct(m.cache) && |m.cache| <= maxEntries;
    assert Next(compile, maxEntries, m, steps[n]) == After(compile, maxEntries, steps, n + 1);
    hide Inv, Next, ByUse, After, UseLog;
    LeastRecentlyUsedLeaves(m.cache, log, maxEntries, e.value, key);
  }
}
