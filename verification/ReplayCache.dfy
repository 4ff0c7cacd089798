// internal/dpop/replay.go: accepted proofs kept for fifteen seconds, in a map and in a binary
// heap ordered by expiry, and the acceptance window of internal/dpop/dpop.go.
module ReplayCache {
  import opened Common

  datatype Expiry = Expiry(hash: Digest, at: int)

  datatype Verdict = Reserved | Replay | Full

  const RETENTION := 15 * SECOND

  // ---- The heap ---------------------------------------------------------------------------------

  function Parent(k: nat): nat
    requires k > 0
  {
    (k - 1) / 2
  }

  // Every entry of the first n is no earlier than its parent, except perhaps those named.
  ghost predicate OrderedExcept(h: seq<Expiry>, n: nat, hole: set<nat>)
    requires n <= |h|
  {
    forall k :: 0 < k < n && k !in hole ==> h[Parent(k)].at <= h[k].at
  }

  ghost predicate Ordered(h: seq<Expiry>) {
    OrderedExcept(h, |h|, {})
  }

  lemma {:induction false} RootIsEarliest(h: seq<Expiry>, k: nat)
    requires Ordered(h) && k < |h|
    ensures h[0].at <= h[k].at
    decreases k
  {
    if k > 0 {
      RootIsEarliest(h, Parent(k));
    }
  }

  function Swapped(h: seq<Expiry>, i: nat, j: nat): (r: seq<Expiry>)
    requires i < |h| && j < |h|
    ensures multiset(r) == multiset(h)
  {
    SwapKeeps(h, i, j);
    h[i := h[j]][j := h[i]]
  }

  lemma SwapKeeps(h: seq<Expiry>, i: nat, j: nat)
    requires i < |h| && j < |h|
    ensures multiset(h[i := h[j]][j := h[i]]) == multiset(h)
  {
  }

  // The pairs of a map, each exactly once.
  ghost predicate SamePairs(h: seq<Expiry>, m: map<Digest, int>) {
    forall e :: multiset(h)[e] == if e.hash in m && m[e.hash] == e.at then 1 else 0
  }

  lemma {:induction false} SameSize(h: seq<Expiry>, m: map<Digest, int>)
    requires SamePairs(h, m)
    ensures |h| == |m|
    decreases |h|
  {
    if |h| == 0 {
      assert forall k :: k in m ==> multiset(h)[Expiry(k, m[k])] == 1;
    } else {
      var last, rest := h[|h| - 1], h[..|h| - 1];
      assert h == rest + [last];
      assert multiset(h)[last] > 0;
      var smaller := m - {last.hash};
      forall e: Expiry ensures multiset(rest)[e] == if e.hash in smaller && smaller[e.hash] == e.at then 1 else 0 {
        assert multiset(h)[e] == multiset(rest)[e] + if e == last then 1 else 0;
      }
      SameSize(rest, smaller);
      assert m == smaller[last.hash := last.at];
    }
  }

  // ---- What a reservation means -------------------------------------------------------------------

  function Unexpired(m: map<Digest, int>, now: int): map<Digest, int> {
    map k | k in m && now < m[k] :: m[k]
  }

  function Reservation(m: map<Digest, int>, capacity: int, hash: Digest, now: int): (map<Digest, int>, Verdict) {
    var live := Unexpired(m, now);
    if hash in live then (live, Replay)
    else if |live| >= capacity then (live, Full)
    else (live[hash := now + RETENTION], Reserved)
  }

  class Cache {
    const maxEntries: int
    var entries: map<Digest, int>
    var expiries: seq<Expiry>

    ghost predicate Valid()
      reads this
    {
      Ordered(expiries) && SamePairs(expiries, entries) && |entries| <= maxEntries
    }

    constructor (maxEntries: int)
      requires maxEntries >= 1
      ensures Valid() && entries == map[] && this.maxEntries == maxEntries
    {
      this.maxEntries := maxEntries;
      entries, expiries := map[], [];
    }

    // The whole of a reservation: expired entries leave, no others, and the verdict and the new
    // entry are those of the timed map.
    method Reserve(hash: Digest, now: int) returns (r: Verdict)
      requires Valid()
      modifies this
      ensures Valid() && (entries, r) == Reservation(old(entries), maxEntries, hash, now)
    {
      RemoveExpired(now);
      if hash in entries {
        return Replay;
      }
      if |entries| >= maxEntries {
        return Full;
      }
      var expiresAt := now + RETENTION;
      ghost var before, pairs := expiries, entries;
      entries := entries[hash := expiresAt];
      HeapPush(Expiry(hash, expiresAt));
      PairAdded(before, pairs, expiries, entries, Expiry(hash, expiresAt));
      return Reserved;
    }

    method RemoveExpired(now: int)
      requires Valid()
      modifies this
      ensures Valid() && entries == Unexpired(old(entries), now)
    {
      while |expiries| != 0 && expiries[0].at <= now
        invariant Valid()
        invariant Unexpired(entries, now) == Unexpired(old(entries), now)
        decreases |expiries|
      {
        ghost var before, pairs := expiries, entries;
        var expired := HeapPop();
        if expired.hash in entries && entries[expired.hash] == expired.at {
          entries := entries - {expired.hash};
        }
        PairRemoved(before, pairs, expiries, entries, expired);
      }
      AllUnexpired(expiries, entries, now);
    }

    // heap.Push: append and move up.
    method HeapPush(e: Expiry)
      requires Ordered(expiries)
      modifies this`expiries
      ensures Ordered(expiries) && multiset(expiries) == old(multiset(expiries)) + multiset{e}
    {
      expiries := expiries + [e];
      var j := |expiries| - 1;
      while j > 0 && expiries[j].at < expiries[Parent(j)].at
        invariant 0 <= j < |expiries| && multiset(expiries) == old(multiset(expiries)) + multiset{e}
        invariant OrderedExcept(expiries, |expiries|, {j})
        invariant forall c :: 0 < c < |expiries| && Parent(c) == j && j > 0 ==> expiries[Parent(j)].at <= expiries[c].at
      {
        var i := Parent(j);
        SiblingsOrdered(expiries, i, j);
        expiries := Swapped(expiries, i, j);
        j := i;
      }
    }

    // heap.Pop: the last entry takes the root's place and moves down.
    method HeapPop() returns (e: Expiry)
      requires Ordered(expiries) && |expiries| > 0
      modifies this`expiries
      ensures e == old(expiries)[0] && Ordered(expiries)
      ensures old(multiset(expiries)) == multiset(expiries) + multiset{e}
    {
      var n := |expiries| - 1;
      ghost var before := expiries;
      expiries := Swapped(expiries, 0, n);
      Down(n);
      e := expiries[n];
      assert expiries == expiries[..n] + [e];
      expiries := expiries[..n];
    }

    // heap.down from the root over the first n entries.
    method Down(n: nat)
      requires n < |expiries| && OrderedBelow(expiries, n, 0)
      modifies this`expiries
      ensures |expiries| == old(|expiries|) && OrderedExcept(expiries, n, {})
      ensures multiset(expiries) == old(multiset(expiries)) && expiries[n] == old(expiries)[n]
    {
      hide OrderedBelow, Bridged, OrderedExcept, Parent;
      var i := 0;
      assert Bridged(expiries, n, 0) by { NoBridge(expiries, n); }
      while true
        invariant 0 <= i && |expiries| == old(|expiries|) && OrderedBelow(expiries, n, i) && Bridged(expiries, n, i)
        invariant multiset(expiries) == old(multiset(expiries)) && expiries[n] == old(expiries)[n]
        decreases n - i
      {
        var j := 2 * i + 1;
        if j >= n {
          SinkDone(expiries, n, i);
          break;
        }
        if j + 1 < n && expiries[j + 1].at < expiries[j].at {
          j := j + 1;
        }
        if expiries[i].at <= expiries[j].at {
          SinkDone(expiries, n, i);
          break;
        }
        Sunk(expiries, n, i, j);
        expiries := Swapped(expiries, i, j);
        i := j;
      }
    }
  }

  // The first n entries are in order, but for the children of one.
  ghost predicate OrderedBelow(h: seq<Expiry>, n: nat, i: nat)
    requires n <= |h|
  {
    forall k :: 0 < k < n && Parent(k) != i ==> h[Parent(k)].at <= h[k].at
  }

  // The children of an entry are no earlier than its parent.
  ghost predicate Bridged(h: seq<Expiry>, n: nat, i: nat)
    requires n <= |h|
  {
    forall k :: 0 < k < n && Parent(k) == i && i > 0 ==> h[Parent(i)].at <= h[k].at
  }

  lemma NoBridge(h: seq<Expiry>, n: nat)
    requires n <= |h|
    ensures Bridged(h, n, 0)
  {
  }

  lemma SinkDone(h: seq<Expiry>, n: nat, i: nat)
    requires n <= |h| && OrderedBelow(h, n, i)
    requires 2 * i + 1 < n ==> h[i].at <= h[2 * i + 1].at
    requires 2 * i + 2 < n ==> h[i].at <= h[2 * i + 2].at
    ensures OrderedExcept(h, n, {})
  {
    forall k | 0 < k < n ensures h[Parent(k)].at <= h[k].at {
      assert Parent(k) == i ==> k == 2 * i + 1 || k == 2 * i + 2;
    }
  }

  // The earlier child changes places with its parent.
  lemma Sunk(h: seq<Expiry>, n: nat, i: nat, j: nat)
    requires n <= |h| && OrderedBelow(h, n, i) && Bridged(h, n, i)
    requires j < n && (j == 2 * i + 1 || j == 2 * i + 2) && h[j].at < h[i].at
    requires 2 * i + 1 < n ==> h[j].at <= h[2 * i + 1].at
    requires 2 * i + 2 < n ==> h[j].at <= h[2 * i + 2].at
    ensures OrderedBelow(Swapped(h, i, j), n, j) && Bridged(Swapped(h, i, j), n, j)
  {
    var r := Swapped(h, i, j);
    forall k | 0 < k < n && Parent(k) != j ensures r[Parent(k)].at <= r[k].at {
      assert Parent(k) == i ==> k == 2 * i + 1 || k == 2 * i + 2;
      if k == i {
        assert Parent(j) == i;
      }
    }
    forall k | 0 < k < n && Parent(k) == j ensures r[Parent(j)].at <= r[k].at {
      assert k > j > i;
    }
  }

  lemma SiblingsOrdered(h: seq<Expiry>, i: nat, j: nat)
    requires 0 < j < |h| && i == Parent(j) && OrderedExcept(h, |h|, {j}) && h[j].at < h[i].at
    requires forall c :: 0 < c < |h| && Parent(c) == j ==> h[i].at <= h[c].at
    ensures OrderedExcept(Swapped(h, i, j), |h|, {i})
    ensures forall c :: 0 < c < |h| && Parent(c) == i && i > 0 ==>
      Swapped(h, i, j)[Parent(i)].at <= Swapped(h, i, j)[c].at
  {
  }

  lemma PairAdded(before: seq<Expiry>, pairs: map<Digest, int>, after: seq<Expiry>, m: map<Digest, int>, e: Expiry)
    requires SamePairs(before, pairs) && e.hash !in pairs && m == pairs[e.hash := e.at]
    requires multiset(after) == multiset(before) + multiset{e}
    ensures SamePairs(after, m)
  {
    forall x: Expiry ensures multiset(after)[x] == if x.hash in m && m[x.hash] == x.at then 1 else 0 {
      assert multiset(before)[x] == if x.hash in pairs && pairs[x.hash] == x.at then 1 else 0;
    }
  }

  lemma PairRemoved(before: seq<Expiry>, pairs: map<Digest, int>, after: seq<Expiry>, m: map<Digest, int>, e: Expiry)
    requires SamePairs(before, pairs) && multiset(before) == multiset(after) + multiset{e}
    requires m == if e.hash in pairs && pairs[e.hash] == e.at then pairs - {e.hash} else pairs
    ensures SamePairs(after, m) && e.hash in pairs && pairs[e.hash] == e.at && |m| == |pairs| - 1
  {
    assert multiset(before)[e] > 0;
    assert pairs == m[e.hash := e.at];
    forall x: Expiry ensures multiset(after)[x] == if x.hash in m && m[x.hash] == x.at then 1 else 0 {
      assert multiset(before)[x] == if x.hash in pairs && pairs[x.hash] == x.at then 1 else 0;
    }
  }

  lemma AllUnexpired(h: seq<Expiry>, m: map<Digest, int>, now: int)
    requires Ordered(h) && SamePairs(h, m) && (|h| == 0 || now < h[0].at)
    ensures Unexpired(m, now) == m
  {
    forall k | k in m ensures now < m[k] {
      assert multiset(h)[Expiry(k, m[k])] == 1;
      var i :| 0 <= i < |h| && h[i] == Expiry(k, m[k]);
      RootIsEarliest(h, i);
    }
  }

  // ---- Runs of reservations ------------------------------------------------------------------------

  datatype Call = Call(hash: Digest, now: int)

  // What the cache holds after the first n calls, in the order they took its lock.
  function After(capacity: int, calls: seq<Call>, n: nat): map<Digest, int>
    requires n <= |calls|
  {
    if n == 0 then map[]
    else Reservation(After(capacity, calls, n - 1), capacity, calls[n - 1].hash, calls[n - 1].now).0
  }

  function Answer(capacity: int, calls: seq<Call>, n: nat): Verdict
    requires n < |calls|
  {
    Reservation(After(capacity, calls, n), capacity, calls[n].hash, calls[n].now).1
  }

  lemma {:induction false} SizeBound(capacity: int, calls: seq<Call>, n: nat)
    requires capacity >= 0 && n <= |calls|
    ensures |After(capacity, calls, n)| <= capacity
  {
    if n > 0 {
      SizeBound(capacity, calls, n - 1);
      var m := After(capacity, calls, n - 1);
      var live := Unexpired(m, calls[n - 1].now);
      assert live.Keys <= m.Keys;
      SubsetSize(live.Keys, m.Keys);
      assert |live| == |live.Keys| && |m| == |m.Keys|;
    }
  }

  // No reading from after the i-th call up to the j-th reaches the given time.
  predicate Before(calls: seq<Call>, i: nat, j: nat, t: int)
    requires j <= |calls|
  {
    forall k :: i < k < j ==> calls[k].now < t
  }

  // A reservation stays, whatever else is asked for, until a reading reaches its expiry.
  lemma {:induction false} StaysReserved(capacity: int, calls: seq<Call>, i: nat, j: nat)
    requires i < j <= |calls| && Answer(capacity, calls, i) == Reserved && Before(calls, i, j, calls[i].now + RETENTION)
    ensures var m := After(capacity, calls, j);
      calls[i].hash in m && m[calls[i].hash] == calls[i].now + RETENTION
  {
    if j > i + 1 {
      StaysReserved(capacity, calls, i, j - 1);
      assert calls[j - 1].now < calls[i].now + RETENTION;
    }
  }

  lemma {:induction false} StaysGone(capacity: int, calls: seq<Call>, hash: Digest, i: nat, j: nat)
    requires i <= j <= |calls| && hash !in After(capacity, calls, i)
    requires forall k :: i <= k < j && calls[k].hash == hash ==> Answer(capacity, calls, k) != Reserved
    ensures hash !in After(capacity, calls, j)
  {
    if i < j {
      StaysGone(capacity, calls, hash, i, j - 1);
      assert calls[j - 1].hash == hash ==> Answer(capacity, calls, j - 1) != Reserved;
    }
  }

  // Presented again after its last reservation, a proof is a replay exactly as long as no reading
  // of the clock in between, its own included, has reached the end of the retention.
  lemma ReplayExact(capacity: int, calls: seq<Call>, i: nat, j: nat)
    requires i < j < |calls| && calls[j].hash == calls[i].hash && Answer(capacity, calls, i) == Reserved
    requires forall k :: i < k < j && calls[k].hash == calls[i].hash ==> Answer(capacity, calls, k) != Reserved
    ensures Answer(capacity, calls, j) == Replay <==> Before(calls, i, j + 1, calls[i].now + RETENTION)
  {
    var hash, until := calls[i].hash, calls[i].now + RETENTION;
    if Before(calls, i, j + 1, until) {
      StaysReserved(capacity, calls, i, j);
    } else {
      var k := FirstReaching(calls, i, j + 1, until);
      StaysReserved(capacity, calls, i, k);
      if k < j {
        StaysGone(capacity, calls, hash, k + 1, j);
      }
    }
  }

  lemma {:induction false} FirstReaching(calls: seq<Call>, i: nat, j: nat, t: int) returns (k: nat)
    requires i < j <= |calls| && !Before(calls, i, j, t)
    ensures i < k < j && t <= calls[k].now && Before(calls, i, k, t)
  {
    if Before(calls, i, j - 1, t) {
      k := j - 1;
    } else {
      k := FirstReaching(calls, i, j - 1, t);
    }
  }

  // ---- When the cache is full ----------------------------------------------------------------------

  // The i-th call reserved its hash, and no reading since, up to the n-th call's own, has reached
  // the end of the retention.
  predicate Running(capacity: int, calls: seq<Call>, i: nat, n: nat)
    requires i < n <= |calls|
  {
    Answer(capacity, calls, i) == Reserved && Before(calls, i, n, calls[i].now + RETENTION)
  }

  // What the map holds after n calls is what runs then.
  lemma {:induction false} KeptRuns(capacity: int, calls: seq<Call>, n: nat, hash: Digest) returns (i: nat)
    requires n <= |calls| && hash in After(capacity, calls, n)
    ensures i < n && calls[i].hash == hash && Running(capacity, calls, i, n)
    ensures After(capacity, calls, n)[hash] == calls[i].now + RETENTION
  {
    if hash == calls[n - 1].hash && Answer(capacity, calls, n - 1) == Reserved {
      i := n - 1;
    } else {
      i := KeptRuns(capacity, calls, n - 1, hash);
    }
  }

  // The hashes with a reservation that still runs at the n-th call.
  ghost function Reservations(capacity: int, calls: seq<Call>, n: nat): set<Digest>
    requires n < |calls|
  {
    set i | 0 <= i < n && Running(capacity, calls, i, n + 1) :: calls[i].hash
  }

  lemma LiveIsRunning(capacity: int, calls: seq<Call>, n: nat)
    requires n < |calls|
    ensures Unexpired(After(capacity, calls, n), calls[n].now).Keys == Reservations(capacity, calls, n)
  {
    hide After, Answer, Reservation;
    var m := After(capacity, calls, n);
    forall hash | hash in m && calls[n].now < m[hash] ensures hash in Reservations(capacity, calls, n) {
      var i := KeptRuns(capacity, calls, n, hash);
      assert Running(capacity, calls, i, n + 1);
    }
    forall hash | hash in Reservations(capacity, calls, n) ensures hash in m && calls[n].now < m[hash] {
      var i :| 0 <= i < n && Running(capacity, calls, i, n + 1) && calls[i].hash == hash;
      StaysReserved(capacity, calls, i, n);
    }
  }

  // Over any calls, a hash is turned away as a replay exactly while its own reservation runs, and
  // for want of room exactly if as many others run as there is room for; every other is reserved.
  lemma AnswersExactly(capacity: int, calls: seq<Call>, n: nat)
    requires n < |calls|
    ensures var hash, running := calls[n].hash, Reservations(capacity, calls, n);
      && (Answer(capacity, calls, n) == Replay <==> hash in running)
      && (Answer(capacity, calls, n) == Full <==> hash !in running && |running| >= capacity)
      && (Answer(capacity, calls, n) == Reserved <==> hash !in running && |running| < capacity)
  {
    LiveIsRunning(capacity, calls, n);
    var live := Unexpired(After(capacity, calls, n), calls[n].now);
    assert |live| == |live.Keys|;
  }

  // ---- One proof within its acceptance window --------------------------------------------------------

  // The check of the issue time, in exact arithmetic.
  predicate InWindow(iat: real, now: int) {
    now as real - 10_000_000_000.0 <= iat <= now as real + 5_000_000_000.0
  }

  ghost predicate Nondecreasing(calls: seq<Call>) {
    forall i, j :: 0 <= i <= j < |calls| ==> calls[i].now <= calls[j].now
  }

  // With one reading for check and reservation and a clock that does not go back, a second
  // presentation within fifteen seconds is rejected, and one that is accepted comes exactly
  // fifteen seconds after the first, at the two ends of the window.
  lemma AcceptedAgain(capacity: int, calls: seq<Call>, i: nat, j: nat, iat: real)
    requires Nondecreasing(calls) && i < j < |calls| && calls[i].hash == calls[j].hash
    requires Answer(capacity, calls, i) == Reserved && InWindow(iat, calls[i].now) && InWindow(iat, calls[j].now)
    ensures calls[j].now < calls[i].now + RETENTION ==> Answer(capacity, calls, j) == Replay
    ensures Answer(capacity, calls, j) == Reserved ==>
      calls[j].now == calls[i].now + RETENTION && iat == calls[i].now as real + 5_000_000_000.0
  {
    if calls[j].now < calls[i].now + RETENTION {
      StaysReserved(capacity, calls, i, j);
    }
  }

  // The ends of the window are accepted and the entry expires on the instant, so this happens.
  lemma AcceptedTwice(hash: Digest)
    ensures var calls, iat := [Call(hash, 0), Call(hash, RETENTION)], 5_000_000_000.0;
      && InWindow(iat, calls[0].now) && InWindow(iat, calls[1].now) && Nondecreasing(calls)
      && Answer(1, calls, 0) == Reserved && Answer(1, calls, 1) == Reserved
  {
    var calls := [Call(hash, 0), Call(hash, RETENTION)];
    assert After(1, calls, 0) == map[] && Unexpired(map[], 0) == map[];
    assert After(1, calls, 1) == map[hash := RETENTION];
    assert Unexpired(map[hash := RETENTION], RETENTION) == map[];
  }

  // With separate readings for check and reservation, as the token endpoint takes them, a proof is
  // a replay exactly if its reservation comes within the retention after the last one.
  lemma SeparateReadings(capacity: int, calls: seq<Call>, i: nat, j: nat)
    requires Nondecreasing(calls) && i < j < |calls| && calls[i].hash == calls[j].hash
    requires Answer(capacity, calls, i) == Reserved
    requires forall k :: i < k < j && calls[k].hash == calls[i].hash ==> Answer(capacity, calls, k) != Reserved
    ensures Answer(capacity, calls, j) == Replay <==> calls[j].now < calls[i].now + RETENTION
  {
    ReplayExact(capacity, calls, i, j);
  }

  // So a proof is accepted twice only if its second reservation waited longer after its check.
  lemma SecondWaits(capacity: int, calls: seq<Call>, i: nat, j: nat, iat: real, checkedFirst: int, checkedAgain: int)
    requires Nondecreasing(calls) && i < j < |calls| && calls[i].hash == calls[j].hash
    requires checkedFirst <= calls[i].now && checkedAgain <= calls[j].now
    requires InWindow(iat, checkedFirst) && InWindow(iat, checkedAgain)
    requires Answer(capacity, calls, i) == Reserved && Answer(capacity, calls, j) == Reserved
    ensures calls[j].now >= calls[i].now + RETENTION && checkedAgain <= checkedFirst + RETENTION
    ensures calls[j].now - checkedAgain >= calls[i].now - checkedFirst
  {
    if calls[j].now < calls[i].now + RETENTION {
      StaysReserved(capacity, calls, i, j);
    }
  }

  // And that happens: checked at once and reserved at once, then checked a second later and
  // reserved when the entry has expired.
  lemma SeparatelyAcceptedTwice(hash: Digest, iat: real)
    requires InWindow(iat, 0) && InWindow(iat, 1_000_000_000)
    ensures var calls := [Call(hash, 0), Call(hash, RETENTION)];
      && Nondecreasing(calls) && 1_000_000_000 <= calls[1].now
      && Answer(1, calls, 0) == Reserved && Answer(1, calls, 1) == Reserved
  {
    AcceptedTwice(hash);
  }
}
