// The map-and-list caches of internal/authpolicy/postgresql.go. A list element is a number, the
// list its elements from most to least recently used, and the map leads from keys to elements.
module LruCache {
  import opened Common

  datatype Entry<K, V> = Entry(key: K, value: V)

  // ---- What the caches mean: entries by recency --------------------------------------------------

  ghost predicate Distinct<K, V>(s: seq<Entry<K, V>>) {
    forall i, j :: 0 <= i < j < |s| ==> s[i].key != s[j].key
  }

  function Without<K(==), V>(s: seq<Entry<K, V>>, key: K): (r: seq<Entry<K, V>>)
    ensures |r| <= |s|
  {
    if |s| == 0 then [] else if s[0].key == key then Without(s[1..], key) else [s[0]] + Without(s[1..], key)
  }

  function Find<K(==), V>(s: seq<Entry<K, V>>, key: K): (r: Option<V>) {
    if |s| == 0 then None else if s[0].key == key then Some(s[0].value) else Find(s[1..], key)
  }

  function First<T>(s: seq<T>, n: nat): seq<T> {
    if |s| <= n then s else s[..n]
  }

  // A used or new entry comes first.
  function Fronted<K(==), V>(s: seq<Entry<K, V>>, e: Entry<K, V>): seq<Entry<K, V>> {
    [e] + Without(s, e.key)
  }

  lemma {:induction false} FindMember<K, V>(s: seq<Entry<K, V>>, key: K)
    ensures Find(s, key).Some? ==> exists i :: 0 <= i < |s| && s[i] == Entry(key, Find(s, key).value)
    ensures Find(s, key).None? <==> forall i :: 0 <= i < |s| ==> s[i].key != key
  {
    if |s| > 0 && s[0].key != key {
      FindMember(s[1..], key);
      assert forall i :: 0 < i < |s| ==> s[i] == s[1..][i - 1];
      if Find(s, key).Some? {
        var i :| 0 <= i < |s[1..]| && s[1..][i] == Entry(key, Find(s, key).value);
        assert s[i + 1] == Entry(key, Find(s, key).value);
      }
    }
  }

  lemma {:induction false} FoundAt<K, V>(s: seq<Entry<K, V>>, i: nat)
    requires Distinct(s) && i < |s|
    ensures Find(s, s[i].key) == Some(s[i].value)
  {
    if i > 0 {
      assert s[0].key != s[i].key && s[1..][i - 1] == s[i];
      FoundAt(s[1..], i - 1);
    }
  }

  lemma ConsDistinct<K, V>(e: Entry<K, V>, r: seq<Entry<K, V>>)
    requires Distinct(r) && forall x :: x in r ==> x.key != e.key
    ensures Distinct([e] + r)
  {
    forall i, j | 0 <= i < j < |[e] + r| ensures ([e] + r)[i].key != ([e] + r)[j].key {
      assert ([e] + r)[j] == r[j - 1];
    }
  }

  lemma {:induction false} WithoutMember<K, V>(s: seq<Entry<K, V>>, key: K, e: Entry<K, V>)
    ensures e in Without(s, key) <==> e in s && e.key != key
  {
    if |s| > 0 {
      assert s == [s[0]] + s[1..];
      WithoutMember(s[1..], key, e);
    }
  }

  lemma {:induction false} WithoutDistinct<K, V>(s: seq<Entry<K, V>>, key: K)
    requires Distinct(s)
    ensures Distinct(Without(s, key))
  {
    if |s| > 0 {
      WithoutDistinct(s[1..], key);
      if s[0].key != key {
        forall x | x in Without(s[1..], key) ensures x.key != s[0].key {
          WithoutMember(s[1..], key, x);
          var i :| 0 <= i < |s[1..]| && s[1..][i] == x;
          assert s[i + 1] == x;
        }
        ConsDistinct(s[0], Without(s[1..], key));
      }
    }
  }

  // Removing a key removes it and keeps every other entry, in order.
  lemma {:induction false} WithoutKeeps<K, V>(s: seq<Entry<K, V>>, key: K, other: K)
    requires Distinct(s)
    ensures Find(Without(s, key), other) == if other == key then None else Find(s, other)
    ensures Find(s, key).Some? ==> |Without(s, key)| == |s| - 1
    ensures Find(s, key).None? ==> Without(s, key) == s
  {
    if |s| > 0 {
      WithoutKeeps(s[1..], key, other);
      if s[0].key == key {
        FindMember(s[1..], key);
      }
    }
  }

  lemma {:induction false} WithoutSplits<K, V>(a: seq<Entry<K, V>>, b: seq<Entry<K, V>>, key: K)
    ensures Without(a + b, key) == Without(a, key) + Without(b, key)
  {
    if |a| == 0 {
      assert a + b == b;
    } else {
      assert (a + b)[1..] == a[1..] + b;
      WithoutSplits(a[1..], b, key);
    }
  }

  // ---- Order of use -------------------------------------------------------------------------------

  // The last place of a key in a log of uses, oldest first.
  function LastUse<K(==)>(log: seq<K>, key: K): (u: int)
    ensures -1 <= u < |log|
  {
    if |log| == 0 then -1 else if log[|log| - 1] == key then |log| - 1 else LastUse(log[..|log| - 1], key)
  }

  lemma {:induction false} LastUseIsLast<K>(log: seq<K>, key: K)
    ensures var u := LastUse(log, key); (u >= 0 ==> log[u] == key) && forall m :: u < m < |log| ==> log[m] != key
  {
    if |log| > 0 {
      LastUseIsLast(log[..|log| - 1], key);
    }
  }

  ghost predicate ByUse<K, V>(s: seq<Entry<K, V>>, log: seq<K>) {
    forall i, j :: 0 <= i < j < |s| ==> LastUse(log, s[i].key) > LastUse(log, s[j].key)
  }

  lemma {:induction false} WithoutByUse<K, V>(s: seq<Entry<K, V>>, log: seq<K>, key: K)
    requires ByUse(s, log)
    ensures ByUse(Without(s, key), log)
  {
    if |s| > 0 {
      WithoutByUse(s[1..], log, key);
      var rest := Without(s[1..], key);
      forall j | 0 <= j < |rest| ensures LastUse(log, s[0].key) > LastUse(log, rest[j].key) {
        WithoutMember(s[1..], key, rest[j]);
        var i :| 0 <= i < |s[1..]| && s[1..][i] == rest[j];
        assert s[i + 1] == rest[j];
      }
    }
  }

  // Using an entry puts it first in the list and last in the log.
  lemma UseKeepsOrder<K, V>(s: seq<Entry<K, V>>, log: seq<K>, e: Entry<K, V>)
    requires ByUse(s, log)
    ensures ByUse(Fronted(s, e), log + [e.key])
  {
    var rest, used := Without(s, e.key), log + [e.key];
    WithoutByUse(s, log, e.key);
    assert used[..|used| - 1] == log;
    forall i | 0 <= i < |rest| ensures LastUse(used, rest[i].key) == LastUse(log, rest[i].key) {
      WithoutMember(s, e.key, rest[i]);
    }
    var all := [e] + rest;
    forall i, j | 0 <= i < j < |all| ensures LastUse(used, all[i].key) > LastUse(used, all[j].key) {
      assert all[j] == rest[j - 1];
    }
  }

  lemma FirstByUse<K, V>(s: seq<Entry<K, V>>, log: seq<K>, n: nat)
    requires ByUse(s, log)
    ensures ByUse(First(s, n), log)
  {
  }

  // Only the last entry leaves for a new one, and only from a full list; no key was used longer ago.
  lemma LeastRecentlyUsedLeaves<K, V>(s: seq<Entry<K, V>>, log: seq<K>, maxEntries: nat, e: Entry<K, V>, key: K)
    requires Distinct(s) && |s| <= maxEntries && ByUse(s, log)
    requires Find(s, key).Some? && Find(First(Fronted(s, e), maxEntries), key).None?
    ensures e.key != key && Find(s, e.key).None? && |s| == maxEntries
    ensures forall x :: x in s && x.key != key ==> LastUse(log, key) < LastUse(log, x.key)
  {
    LastLeaves(s, maxEntries, e, key);
    forall x | x in s && x.key != key ensures LastUse(log, key) < LastUse(log, x.key) {
      var j :| 0 <= j < |s| && s[j] == x;
    }
  }

  // A key that is not among the first n comes after them.
  lemma CutOff<K, V>(s: seq<Entry<K, V>>, n: nat, key: K) returns (i: nat)
    requires Find(s, key).Some? && Find(First(s, n), key).None?
    ensures n <= i < |s| && s[i].key == key
  {
    FindMember(s, key);
    FindMember(First(s, n), key);
    assert forall k :: 0 <= k < |First(s, n)| ==> First(s, n)[k] == s[k];
    i :| i < |s| && s[i].key == key;
  }

  lemma LastLeaves<K, V>(s: seq<Entry<K, V>>, maxEntries: nat, e: Entry<K, V>, key: K)
    requires Distinct(s) && |s| <= maxEntries
    requires Find(s, key).Some? && Find(First(Fronted(s, e), maxEntries), key).None?
    ensures e.key != key && |s| == maxEntries && Find(s, e.key).None? && s[|s| - 1].key == key
  {
    var rest := Without(s, e.key);
    WithoutKeeps(s, e.key, key);
    WithoutKeeps(s, e.key, e.key);
    assert |s| > 0 && First([e] + rest, maxEntries)[0] == e;
    assert key != e.key;
    assert Find([e] + rest, key).Some? by {
      assert ([e] + rest)[1..] == rest;
    }
    hide Find, Distinct, Without, First;
    var i := CutOff([e] + rest, maxEntries, key);
    assert i == |s| && rest == s;
  }

  // ---- The list and the map -----------------------------------------------------------------------

  function Dropped(order: seq<nat>, id: nat): seq<nat> {
    if |order| == 0 then [] else if order[0] == id then order[1..] else [order[0]] + Dropped(order[1..], id)
  }

  ghost predicate NoRepeats(order: seq<nat>) {
    forall i, j :: 0 <= i < j < |order| ==> order[i] != order[j]
  }

  function Listed<K, V>(order: seq<nat>, elements: map<nat, Entry<K, V>>): seq<Entry<K, V>> {
    if |order| == 0 then []
    else (if order[0] in elements then [elements[order[0]]] else []) + Listed(order[1..], elements)
  }

  lemma {:induction false} ListedAt<K, V>(order: seq<nat>, elements: map<nat, Entry<K, V>>)
    requires forall id :: id in order ==> id in elements
    ensures |Listed(order, elements)| == |order|
    ensures forall i :: 0 <= i < |order| ==> Listed(order, elements)[i] == elements[order[i]]
  {
    if |order| > 0 {
      ListedAt(order[1..], elements);
    }
  }

  function Erased<K, V>(m: map<K, V>, key: K): map<K, V> {
    m - {key}
  }

  // Map and list hold the same elements, one for each key.
  ghost predicate Paired<K, V>(index: map<K, nat>, order: seq<nat>, elements: map<nat, Entry<K, V>>, next: nat) {
    (forall id :: id in elements ==>
      id < next) && NoRepeats(order) && SameElements(order, elements) && Leads(index, elements) && Led(index, elements)
  }

  ghost predicate SameElements<K, V>(order: seq<nat>, elements: map<nat, Entry<K, V>>) {
    forall id :: id in order <==> id in elements
  }

  ghost predicate Leads<K, V>(index: map<K, nat>, elements: map<nat, Entry<K, V>>) {
    forall k :: k in index ==> index[k] in elements && elements[index[k]].key == k
  }

  ghost predicate Led<K, V>(index: map<K, nat>, elements: map<nat, Entry<K, V>>) {
    forall id :: id in elements ==> elements[id].key in index && index[elements[id].key] == id
  }

  lemma IndexRemoved<K, V>(index: map<K, nat>, elements: map<nat, Entry<K, V>>, id: nat)
    requires Leads(index, elements) && Led(index, elements) && id in elements
    ensures Leads(Erased(index, elements[id].key), Erased(elements, id))
      && Led(Erased(index, elements[id].key), Erased(elements, id))
  {
  }

  lemma IndexAdded<K, V>(index: map<K, nat>, elements: map<nat, Entry<K, V>>, e: Entry<K, V>, id: nat)
    requires Leads(index, elements) && Led(index, elements) && e.key !in index && id !in elements
    ensures Leads(index[e.key := id], elements[id := e]) && Led(index[e.key := id], elements[id := e])
  {
  }

  lemma ConsNoRepeats(id: nat, r: seq<nat>)
    requires NoRepeats(r) && id !in r
    ensures NoRepeats([id] + r)
  {
    forall i, j | 0 <= i < j < |[id] + r| ensures ([id] + r)[i] != ([id] + r)[j] {
      assert ([id] + r)[j] == r[j - 1];
    }
  }

  lemma {:induction false} DroppedMembers(order: seq<nat>, id: nat)
    requires NoRepeats(order)
    ensures NoRepeats(Dropped(order, id)) && forall k :: k in Dropped(order, id) <==> k in order && k != id
    ensures |Dropped(order, id)| == if id in order then |order| - 1 else |order|
  {
    if |order| > 0 {
      assert order == [order[0]] + order[1..];
      DroppedMembers(order[1..], id);
      if order[0] != id {
        ConsNoRepeats(order[0], Dropped(order[1..], id));
      }
    }
  }

  lemma {:induction false} DroppedListed<K, V>(
    order: seq<nat>, elements: map<nat, Entry<K, V>>, id: nat, index: map<K, nat>)
    requires NoRepeats(order) && (forall k :: k in order ==> k in elements) && id in elements && Led(index, elements)
    ensures forall k :: k in Dropped(order, id) ==> k in elements && k != id
    ensures Listed(Dropped(order, id), elements) == Without(Listed(order, elements), elements[id].key)
  {
    DroppedMembers(order, id);
    if |order| > 0 {
      DroppedListed(order[1..], elements, id, index);
      if order[0] == id {
        assert id !in order[1..];
        DroppedNothing(order[1..], id);
      }
    }
  }

  lemma {:induction false} DroppedNothing(order: seq<nat>, id: nat)
    requires id !in order
    ensures Dropped(order, id) == order
  {
    if |order| > 0 {
      DroppedNothing(order[1..], id);
    }
  }

  class Lru<K(==), V> {
    var index: map<K, nat>
    var order: seq<nat>
    var elements: map<nat, Entry<K, V>>
    var next: nat

    ghost predicate Valid()
      reads this
    {
      Paired(index, order, elements, next)
    }

    ghost function Contents(): (s: seq<Entry<K, V>>)
      requires Valid()
      reads this
    {
      Listed(order, elements)
    }

    lemma KeysDistinct()
      requires Valid()
      ensures Distinct(Contents()) && |Contents()| == |order|
    {
      ListedAt(order, elements);
    }

    constructor ()
      ensures Valid() && Contents() == []
    {
      index, order, elements, next := map[], [], map[], 0;
    }

    lemma {:induction false} Found(key: K)
      requires Valid()
      ensures Find(Contents(), key) == if key in index then Some(elements[index[key]].value) else None
    {
      KeysDistinct();
      ListedAt(order, elements);
      FindMember(Contents(), key);
      if key in index {
        var i :| 0 <= i < |order| && order[i] == index[key];
        FoundAt(Contents(), i);
      }
    }

    // list.Remove and delete.
    method Remove(id: nat)
      requires Valid() && id in elements
      modifies this
      ensures Valid() && Contents() == Without(old(Contents()), old(elements)[id].key)
    {
      PairRemoved(index, order, elements, id, next);
      hide Paired, Listed, Without, Dropped, Distinct, Erased;
      var key := elements[id].key;
      index, order, elements := Erased(index, key), Dropped(order, id), Erased(elements, id);
    }

    method MoveToFront(id: nat)
      requires Valid() && id in elements
      modifies this`order
      ensures Valid() && Contents() == Fronted(old(Contents()), elements[id])
    {
      PairFronted(index, order, elements, id, next);
      hide Paired, Listed, Dropped, Without;
      order := [id] + Dropped(order, id);
    }

    // PushFront of a key the map does not hold.
    method PushFront(e: Entry<K, V>)
      requires Valid() && e.key !in index
      modifies this
      ensures Valid() && Contents() == [e] + old(Contents())
    {
      PairPushed(index, order, elements, e, next);
      hide Paired;
      elements := elements[next := e];
      order := [next] + order;
      index := index[e.key := next];
      next := next + 1;
    }

    // Removes from the back while there are more entries than allowed.
    method Trim(maxEntries: nat)
      requires Valid()
      modifies this
      ensures Valid() && Contents() == First(old(Contents()), maxEntries)
    {
      KeysDistinct();
      hide Paired, Listed, Distinct, Without;
      while |order| > maxEntries
        invariant Valid() && |order| <= old(|order|) && Contents() == old(Contents())[..|order|]
        invariant |order| >= Min(maxEntries, old(|order|))
        decreases |order|
      {
        ghost var s, n := Contents(), |order|;
        LastElement(index, order, elements, next);
        KeysDistinct();
        Remove(order[|order| - 1]);
        WithoutLast(s);
        KeysDistinct();
        assert old(Contents())[..n][..n - 1] == old(Contents())[..n - 1];
      }
    }
  }

  lemma LastElement<K, V>(index: map<K, nat>, order: seq<nat>, elements: map<nat, Entry<K, V>>, next: nat)
    requires Paired(index, order, elements, next) && |order| > 0
    ensures |Listed(order, elements)| == |order| && order[|order| - 1] in elements
    ensures elements[order[|order| - 1]] == Listed(order, elements)[|order| - 1]
  {
    ListedAt(order, elements);
  }

  lemma PairRemoved<K, V>(index: map<K, nat>, order: seq<nat>, elements: map<nat, Entry<K, V>>, id: nat, next: nat)
    requires Paired(index, order, elements, next) && id in elements
    ensures Paired(Erased(index, elements[id].key), Dropped(order, id), Erased(elements, id), next)
    ensures Listed(Dropped(order, id), Erased(elements, id)) == Without(Listed(order, elements), elements[id].key)
  {
    IndexRemoved(index, elements, id);
    DroppedListed(order, elements, id, index);
    DroppedMembers(order, id);
    hide Leads, Led, NoRepeats, Listed, Dropped, Without;
    var rest := Dropped(order, id);
    assert SameElements(rest, Erased(elements, id));
    forall x | x in rest ensures x in elements && x in Erased(elements, id) && elements[x] == Erased(elements, id)[x] {
    }
    hide SameElements, Erased;
    SameListed(rest, elements, Erased(elements, id));
  }

  lemma PairFronted<K, V>(index: map<K, nat>, order: seq<nat>, elements: map<nat, Entry<K, V>>, id: nat, next: nat)
    requires Paired(index, order, elements, next) && id in elements
    ensures Paired(index, [id] + Dropped(order, id), elements, next)
    ensures Listed([id] + Dropped(order, id), elements) == Fronted(Listed(order, elements), elements[id])
  {
    DroppedListed(order, elements, id, index);
    DroppedMembers(order, id);
    ConsNoRepeats(id, Dropped(order, id));
    assert ([id] + Dropped(order, id))[1..] == Dropped(order, id);
    hide Leads, Led, NoRepeats, Dropped, Without;
  }

  lemma PairPushed<K, V>(index: map<K, nat>, order: seq<nat>, elements: map<nat, Entry<K, V>>, e: Entry<K, V>, id: nat)
    requires Paired(index, order, elements, id) && e.key !in index
    ensures Paired(index[e.key := id], [id] + order, elements[id := e], id + 1)
    ensures Listed([id] + order, elements[id := e]) == [e] + Listed(order, elements)
  {
    IndexAdded(index, elements, e, id);
    ConsNoRepeats(id, order);
    hide Leads, Led, NoRepeats;
    assert ([id] + order)[1..] == order;
    SameListed(order, elements, elements[id := e]);
  }

  lemma {:induction false} SameListed<K, V>(order: seq<nat>, a: map<nat, Entry<K, V>>, b: map<nat, Entry<K, V>>)
    requires forall id :: id in order ==> id in a && id in b && a[id] == b[id]
    ensures Listed(order, a) == Listed(order, b)
  {
    if |order| > 0 {
      SameListed(order[1..], a, b);
    }
  }

  lemma WithoutLast<K, V>(s: seq<Entry<K, V>>)
    requires Distinct(s) && |s| > 0
    ensures Without(s, s[|s| - 1].key) == s[..|s| - 1]
  {
    var key := s[|s| - 1].key;
    assert s == s[..|s| - 1] + [s[|s| - 1]];
    WithoutSplits(s[..|s| - 1], [s[|s| - 1]], key);
    FindMember(s[..|s| - 1], key);
    WithoutKeeps(s[..|s| - 1], key, key);
    assert Without([s[|s| - 1]], key) == [] by {
      assert [s[|s| - 1]][1..] == [];
    }
    hide Without, Find, Distinct;
  }
}
