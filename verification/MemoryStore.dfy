/**
 createMemoryStore of src/cache/store.ts: least-recently-used eviction kept in a `recency` map
 beside a NodeCache that drops expired keys on its own.  JavaScript's Map is its keys in
 insertion order; NodeCache is a map with expiry times, a key limit and a background sweep.
 */
module MemoryStore {
  import opened Common

  datatype Entry<V> = Entry(value: V, expiresAt: int)

  predicate Expired<V>(e: Entry<V>, now: int) {
    e.expiresAt < now
  }

  /** A time to live; zero, which NodeCache takes for no limit, is never asked for. */
  type Seconds = n: nat | n >= 1 witness 1

  function Lasting<V>(value: V, ttlSec: Seconds, now: int): Entry<V> {
    Entry(value, now + 1000 * ttlSec)
  }

  /** NodeCache as the store sees it. */
  class NodeCache<V> {
    const maxKeys: nat
    var data: map<string, Entry<V>>

    constructor (maxKeys: nat)
      ensures this.maxKeys == maxKeys && data == map[]
    {
      this.maxKeys := maxKeys;
      data := map[];
    }

    /** An expired entry is removed when it is looked up. */
    method Check(key: string, now: int) returns (live: bool)
      modifies this
      ensures live == (key in old(data) && !Expired(old(data)[key], now))
      ensures data == if live then old(data) else old(data) - {key}
    {
      live := key in data && !Expired(data[key], now);
      if !live {
        data := data - {key};
      }
    }

    method Get(key: string, now: int) returns (value: Option<V>)
      modifies this
      ensures value == if key in old(data) && !Expired(old(data)[key], now) then Some(old(data)[key].value) else None
      ensures data == if value.Some? then old(data) else old(data) - {key}
    {
      var live := Check(key, now);
      value := if live then Some(data[key].value) else None;
    }

    method Del(key: string)
      modifies this
      ensures data == old(data) - {key}
    {
      data := data - {key};
    }

    /** Refuses any key when the limit is reached. */
    method Set(key: string, entry: Entry<V>) returns (full: bool)
      modifies this
      ensures full == (|old(data)| >= maxKeys)
      ensures data == if full then old(data) else old(data)[key := entry]
    {
      full := |data| >= maxKeys;
      if !full {
        data := data[key := entry];
      }
    }

    method Sweep(now: int)
      modifies this
      ensures data == Unexpired(old(data), now)
    {
      data := Unexpired(data, now);
    }
  }

  function Unexpired<V>(data: map<string, Entry<V>>, now: int): map<string, Entry<V>> {
    map k | k in data && !Expired(data[k], now) :: data[k]
  }

  // ---------- the two structures together ----------

  datatype State<V> = State(data: map<string, Entry<V>>, recency: seq<string>, evictions: nat)

  function Without(r: seq<string>, key: string): seq<string> {
    if r == [] then []
    else if r[0] == key then Without(r[1..], key)
    else [r[0]] + Without(r[1..], key)
  }

  function Touched(r: seq<string>, key: string): seq<string> {
    Without(r, key) + [key]
  }

  predicate Distinct(r: seq<string>) {
    forall i, j :: 0 <= i < j < |r| ==> r[i] != r[j]
  }

  /** Every key NodeCache holds is in `recency`, once. */
  ghost predicate Tracked<V>(s: State<V>) {
    Distinct(s.recency) && forall k | k in s.data :: k in s.recency
  }

  /** The store's invariant. */
  ghost predicate Inv<V>(s: State<V>, maxKeys: nat) {
    && maxKeys >= 1
    && Tracked(s)
    && |s.data| <= maxKeys
  }

  function AfterGet<V>(s: State<V>, key: string, now: int): (State<V>, Option<V>) {
    if key in s.data && !Expired(s.data[key], now) then
      (s.(recency := Touched(s.recency, key)), Some(s.data[key].value))
    else (s.(data := s.data - {key}, recency := Without(s.recency, key)), None)
  }

  /** The eviction loop: oldest keys go, present or not, until there is room. */
  function WithRoom<V>(s: State<V>, maxKeys: nat): State<V>
    decreases |s.recency|
  {
    if |s.data| >= maxKeys && s.recency != [] then
      WithRoom(State(s.data - {s.recency[0]}, s.recency[1..], s.evictions + 1), maxKeys)
    else s
  }

  function AfterSet<V>(s: State<V>, key: string, entry: Entry<V>, maxKeys: nat): State<V> {
    var t := WithRoom(s.(data := s.data - {key}, recency := Without(s.recency, key)), maxKeys);
    t.(data := t.data[key := entry], recency := Touched(t.recency, key))
  }

  function AfterDelete<V>(s: State<V>, key: string): State<V> {
    s.(data := s.data - {key}, recency := Without(s.recency, key))
  }

  function AfterSweep<V>(s: State<V>, now: int): State<V> {
    s.(data := Unexpired(s.data, now))
  }

  // ---------- the simple cache it stands for ----------

  /** A least-recently-used cache: its entries, and their keys in order of last use. */
  datatype Lru<V> = Lru(order: seq<string>, data: map<string, Entry<V>>)

  function LruGet<V>(l: Lru<V>, key: string, now: int): (Lru<V>, Option<V>) {
    if key in l.data && !Expired(l.data[key], now) then (l.(order := Touched(l.order, key)), Some(l.data[key].value))
    else (LruDelete(l, key), None)
  }

  /** Drops the least recently used entry if the others already fill the cache. */
  function LruSet<V>(l: Lru<V>, key: string, entry: Entry<V>, maxKeys: nat): Lru<V> {
    var m := LruDelete(l, key);
    var n := if |m.order| >= maxKeys && m.order != [] then LruDelete(m, m.order[0]) else m;
    Lru(n.order + [key], n.data[key := entry])
  }

  function LruDelete<V>(l: Lru<V>, key: string): Lru<V> {
    Lru(Without(l.order, key), l.data - {key})
  }

  function LruSweep<V>(l: Lru<V>, now: int): Lru<V> {
    var data := Unexpired(l.data, now);
    Lru(Present(l.order, data.Keys), data)
  }

  /** The keys of `r` that are in `keys`, in their order. */
  function Present(r: seq<string>, keys: set<string>): seq<string> {
    if r == [] then []
    else if r[0] in keys then [r[0]] + Present(r[1..], keys)
    else Present(r[1..], keys)
  }

  function Abs<V>(s: State<V>): Lru<V> {
    Lru(Present(s.recency, s.data.Keys), s.data)
  }

  // ---------- sequences of keys ----------

  lemma {:induction false} WithoutMembers(r: seq<string>, key: string)
    ensures forall k :: k in Without(r, key) <==> k in r && k != key
    ensures key !in r ==> Without(r, key) == r
  {
    if r != [] {
      WithoutMembers(r[1..], key);
      assert r == [r[0]] + r[1..];
    }
  }

  lemma {:induction false} WithoutDistinct(r: seq<string>, key: string)
    requires Distinct(r)
    ensures Distinct(Without(r, key))
  {
    if r != [] {
      var rest := r[1..];
      forall i, j | 0 <= i < j < |rest| ensures rest[i] != rest[j] {
        assert rest[i] == r[i + 1] && rest[j] == r[j + 1];
      }
      WithoutDistinct(rest, key);
      WithoutMembers(rest, key);
      assert r[0] !in rest;
    }
  }

  lemma {:induction false} PresentMembers(r: seq<string>, keys: set<string>)
    ensures forall k :: k in Present(r, keys) <==> k in r && k in keys
  {
    if r != [] {
      PresentMembers(r[1..], keys);
      assert r == [r[0]] + r[1..];
    }
  }

  lemma {:induction false} PresentWithout(r: seq<string>, keys: set<string>, key: string)
    ensures Present(Without(r, key), keys) == Without(Present(r, keys), key) == Present(Without(r, key), keys - {key})
  {
    if r != [] {
      PresentWithout(r[1..], keys, key);
      var p, w := Present(r[1..], keys), Without(r[1..], key);
      assert ([r[0]] + p)[1..] == p && ([r[0]] + w)[1..] == w;
    }
  }

  lemma {:induction false} PresentAppend(r: seq<string>, key: string, keys: set<string>)
    requires key in keys
    ensures Present(r + [key], keys) == Present(r, keys) + [key]
  {
    if r == [] {
      assert [key][1..] == [];
    } else {
      assert (r + [key])[1..] == r[1..] + [key];
      PresentAppend(r[1..], key, keys);
    }
  }

  lemma {:induction false} PresentTwice(r: seq<string>, keys: set<string>, fewer: set<string>)
    requires fewer <= keys
    ensures Present(Present(r, keys), fewer) == Present(r, fewer)
  {
    if r != [] {
      PresentTwice(r[1..], keys, fewer);
      var p := Present(r[1..], keys);
      if r[0] in keys {
        assert ([r[0]] + p)[1..] == p;
      }
    }
  }

  lemma {:induction false} PresentIrrelevant(r: seq<string>, keys: set<string>, key: string)
    requires key !in r
    ensures Present(r, keys + {key}) == Present(r, keys)
  {
    if r != [] {
      PresentIrrelevant(r[1..], keys, key);
    }
  }

  lemma DistinctTail(r: seq<string>)
    requires r != [] && Distinct(r)
    ensures Distinct(r[1..]) && r[0] !in r[1..]
  {
  }

  lemma {:induction false} PresentCount(r: seq<string>, keys: set<string>)
    requires Distinct(r) && forall k | k in keys :: k in r
    ensures |Present(r, keys)| == |keys|
  {
    if r == [] {
      assert keys == {};
    } else {
      var rest := keys - {r[0]};
      DistinctTail(r);
      assert r == [r[0]] + r[1..];
      forall k | k in rest ensures k in r[1..] {
        assert k in r && k != r[0];
      }
      PresentCount(r[1..], rest);
      PresentIrrelevant(r[1..], rest, r[0]);
      if r[0] in keys {
        assert rest + {r[0]} == keys;
      } else {
        assert rest == keys;
      }
    }
  }

  // ---------- making room ----------

  /** How many keys the eviction loop pops: those NodeCache lost already, and one that it still has. */
  function Popped(r: seq<string>, keys: set<string>): nat {
    if r == [] then 0 else if r[0] in keys then 1 else 1 + Popped(r[1..], keys)
  }

  lemma Removed<V>(data: map<string, Entry<V>>, key: string)
    ensures (data - {key}).Keys == data.Keys - {key}
    ensures |data - {key}| == |data| - if key in data then 1 else 0
    ensures key !in data ==> data - {key} == data
  {
    var rest := data - {key};
    assert rest.Keys == data.Keys - {key};
    assert |rest| == |rest.Keys| && |data| == |data.Keys|;
  }

  function Popped1<V>(s: State<V>): State<V>
    requires s.recency != []
  {
    State(s.data - {s.recency[0]}, s.recency[1..], s.evictions + 1)
  }

  lemma PopKeeps<V>(s: State<V>)
    requires s.recency != [] && Tracked(s)
    ensures Tracked(Popped1(s))
  {
    DistinctTail(s.recency);
    assert s.recency == [s.recency[0]] + s.recency[1..];
  }

  lemma FullHasKeys<V>(s: State<V>)
    requires |s.data| >= 1 && Tracked(s)
    ensures s.recency != []
  {
    assert |s.data| == |s.data.Keys|;
    assert s.recency == [] ==> s.data.Keys == {};
  }

  /** A turn on a key NodeCache still has: the head of the order goes. */
  lemma PopEntry<V>(s: State<V>)
    requires s.recency != [] && Tracked(s)
    requires s.recency[0] in s.data
    ensures var u, order := Popped1(s), Present(s.recency, s.data.Keys);
            && |u.data| == |s.data| - 1
            && order == [s.recency[0]] + Present(u.recency, u.data.Keys)
  {
    var oldest, u := s.recency[0], Popped1(s);
    Removed(s.data, oldest);
    DistinctTail(s.recency);
    PresentIrrelevant(u.recency, u.data.Keys, oldest);
    assert u.data.Keys + {oldest} == s.data.Keys;
  }

  /** The outcome of the eviction loop: the head of the order is gone. */
  ghost predicate DropsHead<V>(s: State<V>, t: State<V>) {
    var order := Present(s.recency, s.data.Keys);
    && order != []
    && t.data == s.data - {order[0]} && |t.data| == |s.data| - 1
    && Present(t.recency, t.data.Keys) == order[1..]
    && t.evictions == s.evictions + Popped(s.recency, s.data.Keys)
    && Tracked(t)
    && (forall k | k in t.recency :: k in s.recency)
  }

  /** A turn on a key NodeCache has lost: only the key goes. */
  lemma PopGhost<V>(s: State<V>, t: State<V>)
    requires s.recency != [] && s.recency[0] !in s.data
    requires DropsHead(Popped1(s), t)
    ensures Popped1(s).data == s.data && DropsHead(s, t)
  {
    Removed(s.data, s.recency[0]);
  }

  lemma {:induction false} WithRoomDrops<V>(s: State<V>, maxKeys: nat)
    requires maxKeys >= 1 && Tracked(s) && |s.data| == maxKeys
    ensures DropsHead(s, WithRoom(s, maxKeys))
    decreases |s.recency|
  {
    FullHasKeys(s);
    PopKeeps(s);
    Removed(s.data, s.recency[0]);
    if s.recency[0] in s.data {
      PopEntry(s);
      assert WithRoom(Popped1(s), maxKeys) == Popped1(s);
    } else {
      WithRoomDrops(Popped1(s), maxKeys);
      PopGhost(s, WithRoom(s, maxKeys));
    }
  }

  // ---------- each operation refines the simple cache ----------

  lemma DroppedKey<V>(s: State<V>, key: string, maxKeys: nat)
    requires Inv(s, maxKeys)
    ensures Inv(AfterDelete(s, key), maxKeys) && Abs(AfterDelete(s, key)) == LruDelete(Abs(s), key)
    ensures key in s.data ==> |AfterDelete(s, key).data| == |s.data| - 1
    ensures key !in s.data ==> AfterDelete(s, key).data == s.data
    ensures key !in AfterDelete(s, key).recency
  {
    Removed(s.data, key);
    WithoutDistinct(s.recency, key);
    WithoutMembers(s.recency, key);
    PresentWithout(s.recency, s.data.Keys, key);
  }

  lemma GetRefines<V>(s: State<V>, key: string, now: int, maxKeys: nat)
    requires Inv(s, maxKeys)
    ensures var (t, value) := AfterGet(s, key, now);
            Inv(t, maxKeys) && (Abs(t), value) == LruGet(Abs(s), key, now)
  {
    DroppedKey(s, key, maxKeys);
    if key in s.data && !Expired(s.data[key], now) {
      var r := Without(s.recency, key);
      WithoutDistinct(s.recency, key);
      WithoutMembers(s.recency, key);
      PresentWithout(s.recency, s.data.Keys, key);
      PresentAppend(r, key, s.data.Keys);
    }
  }

  lemma Store<V>(t: State<V>, key: string, entry: Entry<V>, maxKeys: nat)
    requires maxKeys >= 1 && Tracked(t)
    requires |t.data| < maxKeys && key !in t.recency
    ensures var u := t.(data := t.data[key := entry], recency := Touched(t.recency, key));
            && Inv(u, maxKeys)
            && Abs(u) == Lru(Present(t.recency, t.data.Keys) + [key], t.data[key := entry])
            && u.recency == t.recency + [key]
  {
    var data := t.data[key := entry];
    WithoutMembers(t.recency, key);
    assert data.Keys == t.data.Keys + {key};
    assert |data| == |data.Keys| && |t.data| == |t.data.Keys|;
    PresentAppend(t.recency, key, data.Keys);
    PresentIrrelevant(t.recency, t.data.Keys, key);
  }

  /** Making room for a key that is gone drops exactly the head of the order, and only when full. */
  lemma RoomRefines<V>(d: State<V>, maxKeys: nat)
    requires Inv(d, maxKeys)
    ensures var t, order := WithRoom(d, maxKeys), Present(d.recency, d.data.Keys);
            && |order| == |d.data|
            && Tracked(t) && |t.data| < maxKeys
            && (forall k | k in t.recency :: k in d.recency)
            && (|d.data| < maxKeys ==> t == d)
            && (|d.data| == maxKeys ==>
                  DropsHead(d, t))
  {
    PresentCount(d.recency, d.data.Keys);
    assert |d.data| == |d.data.Keys|;
    if |d.data| == maxKeys {
      WithRoomDrops(d, maxKeys);
    }
  }

  lemma {:induction false} PresentDistinct(r: seq<string>, keys: set<string>)
    requires Distinct(r)
    ensures Distinct(Present(r, keys))
  {
    if r != [] {
      DistinctTail(r);
      PresentDistinct(r[1..], keys);
      PresentMembers(r[1..], keys);
    }
  }

  lemma SetRefines<V>(s: State<V>, key: string, entry: Entry<V>, maxKeys: nat)
    requires Inv(s, maxKeys)
    ensures var t := AfterSet(s, key, entry, maxKeys);
            Inv(t, maxKeys) && Abs(t) == LruSet(Abs(s), key, entry, maxKeys)
  {
    var d := AfterDelete(s, key);
    DroppedKey(s, key, maxKeys);
    RoomRefines(d, maxKeys);
    var room, order := WithRoom(d, maxKeys), Present(d.recency, d.data.Keys);
    if |d.data| == maxKeys {
      PresentDistinct(d.recency, d.data.Keys);
      DistinctTail(order);
      WithoutMembers(order[1..], order[0]);
      assert Without(order, order[0]) == order[1..];
    }
    Store(room, key, entry, maxKeys);
  }

  lemma SweepRefines<V>(s: State<V>, now: int, maxKeys: nat)
    requires Inv(s, maxKeys)
    ensures Inv(AfterSweep(s, now), maxKeys) && Abs(AfterSweep(s, now)) == LruSweep(Abs(s), now)
  {
    var data := Unexpired(s.data, now);
    assert data.Keys <= s.data.Keys;
    SetSizes(data.Keys, s.data.Keys);
    assert |data| == |data.Keys| && |s.data| == |s.data.Keys|;
    PresentTwice(s.recency, s.data.Keys, data.Keys);
  }

  lemma {:induction false} SetSizes(a: set<string>, b: set<string>)
    requires a <= b
    ensures |a| <= |b|
  {
    assert |b| == |a| + |b - a| by {
      assert b == a + (b - a);
    }
  }

  // ---------- the store ----------

  class MemoryStore<V> {
    const maxKeys: nat
    const c: NodeCache<V>
    var recency: seq<string>
    var evictions: nat

    ghost function View(): State<V>
      reads this, c
    {
      State(c.data, recency, evictions)
    }

    ghost predicate Valid()
      reads this, c
    {
      c.maxKeys == maxKeys && Inv(View(), maxKeys)
    }

    constructor (maxKeys: nat)
      requires maxKeys >= 1
      ensures Valid() && fresh(c) && this.maxKeys == maxKeys && View() == State(map[], [], 0)
    {
      this.maxKeys := maxKeys;
      c := new NodeCache(maxKeys);
      recency := [];
      evictions := 0;
    }

    method Touch(key: string)
      modifies this`recency
      ensures recency == Touched(old(recency), key)
    {
      recency := Without(recency, key);
      recency := recency + [key];
    }

    /** The branch for a cache with keys but no recency is dead: every present key is in `recency`. */
    method EvictLeastRecentlyUsed() returns (evicted: bool)
      requires Tracked(View())
      modifies this, c
      ensures evicted == (old(recency) != [])
      ensures View() == if evicted
                        then State(old(c.data) - {old(recency)[0]}, old(recency)[1..], old(evictions) + 1)
                        else old(View())
    {
      if recency != [] {
        var oldest := recency[0];
        recency := recency[1..];
        c.Del(oldest);
        evictions := evictions + 1;
        return true;
      }
      assert c.data.Keys == {};
      return false;
    }

    /** The loop of makeRoom. */
    method EvictUntilRoom()
      requires Tracked(View()) && maxKeys >= 1
      modifies this, c
      ensures View() == WithRoom(old(View()), maxKeys)
    {
      var evicted := true;
      while |c.data| >= maxKeys && evicted
        invariant evicted && Tracked(View())
        invariant WithRoom(View(), maxKeys) == WithRoom(old(View()), maxKeys)
        decreases |recency|
      {
        ghost var before := View();
        EvictionTurn(before, maxKeys);
        evicted := EvictLeastRecentlyUsed();
        assert View() == Popped1(before);
      }
      assert WithRoom(View(), maxKeys) == View();
    }

    method MakeRoom(key: string, now: int)
      requires Valid()
      modifies this, c
      ensures View() == WithRoom(AfterDelete(old(View()), key), maxKeys)
      ensures Tracked(View()) && key !in recency && |c.data| < maxKeys
    {
      DroppedKey(View(), key, maxKeys);
      RoomRefines(AfterDelete(View(), key), maxKeys);
      var has := c.Check(key, now);
      if has {
        c.Del(key);
        recency := Without(recency, key);
      } else {
        recency := Without(recency, key);
      }
      assert View() == AfterDelete(old(View()), key);
      EvictUntilRoom();
    }

    method Get(key: string, now: int) returns (value: Option<V>)
      requires Valid()
      modifies this, c
      ensures Valid() && (View(), value) == AfterGet(old(View()), key, now)
    {
      GetRefines(View(), key, now, maxKeys);
      value := c.Get(key, now);
      if value.None? {
        recency := Without(recency, key);
      } else {
        Touch(key);
      }
    }

    /** NodeCache never refuses the key: room was made, whatever has expired meanwhile. */
    method Set(key: string, value: V, ttlSec: Seconds, now: int) returns (full: bool)
      requires Valid()
      modifies this, c
      ensures Valid() && !full
      ensures View() == AfterSet(old(View()), key, Lasting(value, ttlSec, now), maxKeys)
    {
      SetRefines(View(), key, Lasting(value, ttlSec, now), maxKeys);
      MakeRoom(key, now);
      full := c.Set(key, Lasting(value, ttlSec, now));
      Touch(key);
    }

    method Delete(key: string)
      requires Valid()
      modifies this, c
      ensures Valid() && View() == AfterDelete(old(View()), key)
    {
      DroppedKey(View(), key, maxKeys);
      c.Del(key);
      recency := Without(recency, key);
    }

    /** NodeCache's own timer, which the store does not hear of. */
    method Sweep(now: int)
      requires Valid()
      modifies c
      ensures Valid() && View() == AfterSweep(old(View()), now)
    {
      SweepRefines(View(), now, maxKeys);
      c.Sweep(now);
    }
  }

  /** While the cache is full there is a key to evict, and evicting it is one turn of the loop. */
  lemma EvictionTurn<V>(s: State<V>, maxKeys: nat)
    requires |s.data| >= maxKeys >= 1 && Tracked(s)
    ensures s.recency != [] && Tracked(Popped1(s)) && WithRoom(s, maxKeys) == WithRoom(Popped1(s), maxKeys)
  {
    FullHasKeys(s);
    PopKeeps(s);
  }

  // ---------- runs ----------

  datatype Op<V> =
    | Get(key: string, now: int)
    | Set(key: string, value: V, ttlSec: Seconds, now: int)
    | Delete(key: string)
    | Sweep(now: int)

  function Step<V>(s: State<V>, op: Op<V>, maxKeys: nat): (State<V>, Option<V>) {
    match op
    case Get(key, now) => AfterGet(s, key, now)
    case Set(key, value, ttlSec, now) => (AfterSet(s, key, Lasting(value, ttlSec, now), maxKeys), None)
    case Delete(key) => (AfterDelete(s, key), None)
    case Sweep(now) => (AfterSweep(s, now), None)
  }

  function LruStep<V>(l: Lru<V>, op: Op<V>, maxKeys: nat): (Lru<V>, Option<V>) {
    match op
    case Get(key, now) => LruGet(l, key, now)
    case Set(key, value, ttlSec, now) => (LruSet(l, key, Lasting(value, ttlSec, now), maxKeys), None)
    case Delete(key) => (LruDelete(l, key), None)
    case Sweep(now) => (LruSweep(l, now), None)
  }

  function Run<V>(s: State<V>, ops: seq<Op<V>>, maxKeys: nat): (State<V>, seq<Option<V>>)
    decreases |ops|
  {
    if ops == [] then (s, [])
    else
      var (t, answer) := Step(s, ops[0], maxKeys);
      var (u, answers) := Run(t, ops[1..], maxKeys);
      (u, [answer] + answers)
  }

  function LruRun<V>(l: Lru<V>, ops: seq<Op<V>>, maxKeys: nat): (Lru<V>, seq<Option<V>>)
    decreases |ops|
  {
    if ops == [] then (l, [])
    else
      var (m, answer) := LruStep(l, ops[0], maxKeys);
      var (n, answers) := LruRun(m, ops[1..], maxKeys);
      (n, [answer] + answers)
  }

  function Empty<V>(): State<V> {
    State(map[], [], 0)
  }

  lemma StepRefines<V>(s: State<V>, op: Op<V>, maxKeys: nat)
    requires Inv(s, maxKeys)
    ensures var (t, answer) := Step(s, op, maxKeys);
            Inv(t, maxKeys) && (Abs(t), answer) == LruStep(Abs(s), op, maxKeys)
  {
    match op
    case Get(key, now) =>
      GetRefines(s, key, now, maxKeys);
      assert LruStep(Abs(s), op, maxKeys) == LruGet(Abs(s), key, now);
    case Set(key, value, ttlSec, now) =>
      var entry := Lasting(value, ttlSec, now);
      SetRefines(s, key, entry, maxKeys);
      assert LruStep(Abs(s), op, maxKeys) == (LruSet(Abs(s), key, entry, maxKeys), None);
    case Delete(key) =>
      DroppedKey(s, key, maxKeys);
    case Sweep(now) =>
      SweepRefines(s, now, maxKeys);
  }

  lemma {:induction false} RunRefines<V>(s: State<V>, ops: seq<Op<V>>, maxKeys: nat)
    requires Inv(s, maxKeys)
    ensures var (t, answers) := Run(s, ops, maxKeys);
            Inv(t, maxKeys) && (Abs(t), answers) == LruRun(Abs(s), ops, maxKeys)
    decreases |ops|
  {
    if ops != [] {
      StepRefines(s, ops[0], maxKeys);
      RunRefines(Step(s, ops[0], maxKeys).0, ops[1..], maxKeys);
    }
  }

  /**
   Any mix of reads, writes, deletes and background expiry answers as a plain LRU cache of at
   most maxKeys entries does, and leaves the same entries in the same order of last use.
   */
  lemma StoreIsLru<V>(ops: seq<Op<V>>, maxKeys: nat)
    requires maxKeys >= 1
    ensures var (s, answers) := Run(Empty(), ops, maxKeys);
            && (Abs(s), answers) == LruRun(Lru([], map[]), ops, maxKeys)
            && |s.data| <= maxKeys && Abs(s).data == s.data
            && forall k :: k in s.data <==> k in Abs(s).order
  {
    RunRefines(Empty(), ops, maxKeys);
    var s := Run(Empty<V>(), ops, maxKeys).0;
    PresentMembers(s.recency, s.data.Keys);
  }

  lemma {:induction false} RunAppend<V>(s: State<V>, xs: seq<Op<V>>, op: Op<V>, maxKeys: nat)
    ensures |Run(s, xs, maxKeys).1| == |xs|
    ensures var (t, answers) := Run(s, xs, maxKeys);
            var (u, answer) := Step(t, op, maxKeys);
            Run(s, xs + [op], maxKeys) == (u, answers + [answer])
    decreases |xs|
  {
    if xs == [] {
      assert [op][1..] == [];
      assert xs + [op] == [op];
      var (u, answer) := Step(s, op, maxKeys);
      assert Run(u, [], maxKeys) == (u, []);
      assert [answer] + [] == [] + [answer];
    } else {
      assert (xs + [op])[0] == xs[0] && (xs + [op])[1..] == xs[1..] + [op];
      var (t, answer) := Step(s, xs[0], maxKeys);
      RunAppend(t, xs[1..], op, maxKeys);
      var (u, answers) := Run(t, xs[1..], maxKeys);
      var last := Step(u, op, maxKeys).1;
      assert [answer] + (answers + [last]) == ([answer] + answers) + [last];
    }
  }

  // ---------- the order is the order of last use ----------

  /** A write uses its key, and so does a read that finds something. */
  predicate Uses<V>(op: Op<V>, answer: Option<V>, key: string) {
    (op.Set? && op.key == key) || (op.Get? && op.key == key && answer.Some?)
  }

  /** The index of the last operation that used the key, or -1. */
  function LastUse<V>(ops: seq<Op<V>>, answers: seq<Option<V>>, key: string): int
    requires |ops| == |answers|
    ensures -1 <= LastUse(ops, answers, key) < |ops|
  {
    if ops == [] then -1
    else
      var n := |ops| - 1;
      if Uses(ops[n], answers[n], key) then n else LastUse(ops[..n], answers[..n], key)
  }

  /** The keys come in the order of these numbers, all of them at least `least` and below `limit`. */
  predicate Increasing(at: string -> int, r: seq<string>, limit: int) {
    && (forall i, j :: 0 <= i < j < |r| ==> at(r[i]) < at(r[j]))
    && (forall k | k in r :: 0 <= at(k) < limit)
  }

  lemma IncreasingTail(at: string -> int, r: seq<string>, limit: int)
    requires r != [] && Increasing(at, r, limit)
    ensures Increasing(at, r[1..], limit) && forall k | k in r[1..] :: at(r[0]) < at(k)
  {
    var rest := r[1..];
    forall i, j | 0 <= i < j < |rest| ensures at(rest[i]) < at(rest[j]) {
      assert rest[i] == r[i + 1] && rest[j] == r[j + 1];
    }
  }

  lemma IncreasingPut(at: string -> int, first: string, rest: seq<string>, limit: int)
    requires Increasing(at, rest, limit) && 0 <= at(first) < limit && forall k | k in rest :: at(first) < at(k)
    ensures Increasing(at, [first] + rest, limit)
  {
  }

  lemma {:induction false} IncreasingWithout(at: string -> int, r: seq<string>, key: string, limit: int)
    requires Increasing(at, r, limit)
    ensures Increasing(at, Without(r, key), limit)
  {
    if r != [] {
      IncreasingTail(at, r, limit);
      IncreasingWithout(at, r[1..], key, limit);
      WithoutMembers(r[1..], key);
      if r[0] != key {
        IncreasingPut(at, r[0], Without(r[1..], key), limit);
      }
    }
  }

  lemma {:induction false} IncreasingPresent(at: string -> int, r: seq<string>, keys: set<string>, limit: int)
    requires Increasing(at, r, limit)
    ensures Increasing(at, Present(r, keys), limit)
  {
    if r != [] {
      IncreasingTail(at, r, limit);
      IncreasingPresent(at, r[1..], keys, limit);
      PresentMembers(r[1..], keys);
      if r[0] in keys {
        IncreasingPut(at, r[0], Present(r[1..], keys), limit);
      }
    }
  }

  /** A key used now, behind others that are not, comes last. */
  lemma IncreasingAppend(at: string -> int, now: string -> int, r: seq<string>, key: string, limit: int)
    requires Increasing(at, r, limit) && (forall k | k in r :: now(k) == at(k)) && now(key) == limit >= 0
    ensures Increasing(now, r + [key], limit + 1)
  {
  }

  lemma IncreasingSame(at: string -> int, now: string -> int, r: seq<string>, limit: int)
    requires Increasing(at, r, limit) && forall k | k in r :: now(k) == at(k)
    ensures Increasing(now, r, limit + 1)
  {
  }

  /** The order after an operation: as before without its key, or the entry dropped for it, and its key last if used. */
  lemma LruStepOrder<V>(l: Lru<V>, op: Op<V>, maxKeys: nat, at: string -> int, now: string -> int, limit: int)
    requires Increasing(at, l.order, limit) && limit >= 0
    requires var (_, answer) := LruStep(l, op, maxKeys);
             forall k :: now(k) == if Uses(op, answer, k) then limit else at(k)
    ensures Increasing(now, LruStep(l, op, maxKeys).0.order, limit + 1)
  {
    if op.Sweep? {
      var keys := Unexpired(l.data, op.now).Keys;
      IncreasingPresent(at, l.order, keys, limit);
      IncreasingSame(at, now, Present(l.order, keys), limit);
    } else {
      var r := Without(l.order, op.key);
      IncreasingWithout(at, l.order, op.key, limit);
      WithoutMembers(l.order, op.key);
      if op.Set? {
        var m := LruDelete(l, op.key);
        var q := if |m.order| >= maxKeys && m.order != [] then Without(r, r[0]) else r;
        if q != r {
          IncreasingWithout(at, r, r[0], limit);
          WithoutMembers(r, r[0]);
        }
        IncreasingAppend(at, now, q, op.key, limit);
      } else if Uses(op, LruStep(l, op, maxKeys).1, op.key) {
        IncreasingAppend(at, now, r, op.key, limit);
      } else {
        IncreasingSame(at, now, r, limit);
      }
    }
  }

  /** The order of the present keys is, in every run, that of their last write or successful read. */
  lemma {:induction false} OrderIsLastUse<V>(ops: seq<Op<V>>, maxKeys: nat)
    requires maxKeys >= 1
    ensures var (s, answers) := Run(Empty(), ops, maxKeys);
            |answers| == |ops| && Increasing(k => LastUse(ops, answers, k), Abs(s).order, |ops|)
    decreases |ops|
  {
    if ops != [] {
      var n := |ops| - 1;
      var xs := ops[..n];
      OrderIsLastUse(xs, maxKeys);
      assert xs + [ops[n]] == ops;
      RunAppend(Empty<V>(), xs, ops[n], maxKeys);
      RunRefines(Empty<V>(), xs, maxKeys);
      var (s, before) := Run(Empty<V>(), xs, maxKeys);
      StepRefines(s, ops[n], maxKeys);
      var answers := Run(Empty<V>(), ops, maxKeys).1;
      assert answers[..n] == before;
      LruStepOrder(
        Abs(s), ops[n], maxKeys, k => LastUse(xs, before, k), k => LastUse(ops, answers, k), n);
    }
  }

  // ---------- how long a value lasts ----------

  /** The write drops the entry of `key`, another key's, to make room. */
  predicate Evicts<V>(s: State<V>, op: Op<V>, key: string, maxKeys: nat) {
    op.Set? && op.key != key
    && var others := Without(Abs(s).order, op.key);
       |others| >= maxKeys && others != [] && others[0] == key
  }

  /** The operation lets an entry of `key` be, one that lives until `end`. */
  predicate Spares<V>(s: State<V>, op: Op<V>, key: string, end: int, maxKeys: nat) {
    match op
    case Get(k, now) => k != key || now <= end
    case Set(k, _, _, _) => k != key && !Evicts(s, op, key, maxKeys)
    case Delete(k) => k != key
    case Sweep(now) => now <= end
  }

  predicate SparesAll<V>(s: State<V>, ops: seq<Op<V>>, key: string, end: int, maxKeys: nat)
    decreases |ops|
  {
    ops != [] ==>
      Spares(s, ops[0], key, end, maxKeys) && SparesAll(Step(s, ops[0], maxKeys).0, ops[1..], key, end, maxKeys)
  }

  lemma SparedStays<V>(s: State<V>, op: Op<V>, key: string, e: Entry<V>, maxKeys: nat)
    requires Inv(s, maxKeys) && key in s.data && s.data[key] == e && Spares(s, op, key, e.expiresAt, maxKeys)
    ensures var t := Step(s, op, maxKeys).0; key in t.data && t.data[key] == e
  {
    if op.Set? {
      SetDropsOldestOnly(s, op.key, Lasting(op.value, op.ttlSec, op.now), maxKeys);
    }
  }

  lemma {:induction false} SparedThroughout<V>(s: State<V>, ops: seq<Op<V>>, key: string, e: Entry<V>, maxKeys: nat)
    requires Inv(s, maxKeys) && key in s.data && s.data[key] == e && SparesAll(s, ops, key, e.expiresAt, maxKeys)
    ensures var t := Run(s, ops, maxKeys).0; key in t.data && t.data[key] == e
    decreases |ops|
  {
    if ops != [] {
      SparedStays(s, ops[0], key, e, maxKeys);
      StepRefines(s, ops[0], maxKeys);
      SparedThroughout(Step(s, ops[0], maxKeys).0, ops[1..], key, e, maxKeys);
    }
  }

  /**
   A value written for `ttlSec` seconds, and not overwritten, deleted, evicted or looked at too late
   meanwhile, is read back up to 1000 * ttlSec milliseconds later and not after.
   */
  lemma ValueLasts<V>(
    s: State<V>, key: string, value: V, ttlSec: Seconds, now: int, ops: seq<Op<V>>, later: int, maxKeys: nat)
    requires Inv(s, maxKeys)
    requires var t := Step(s, Set(key, value, ttlSec, now), maxKeys).0;
             SparesAll(t, ops, key, now + 1000 * ttlSec, maxKeys)
    ensures var t := Step(s, Set(key, value, ttlSec, now), maxKeys).0;
            Step(Run(t, ops, maxKeys).0, Get(key, later), maxKeys).1 == if later <= now + 1000 * ttlSec then Some(value) else None
  {
    var e := Lasting(value, ttlSec, now);
    var t := Step(s, Set(key, value, ttlSec, now), maxKeys).0;
    WrittenIsThere(s, key, value, ttlSec, now, maxKeys);
    SparedThroughout(t, ops, key, e, maxKeys);
    ReadInTime(Run(t, ops, maxKeys).0, key, e, later, maxKeys);
  }

  lemma WrittenIsThere<V>(s: State<V>, key: string, value: V, ttlSec: Seconds, now: int, maxKeys: nat)
    requires Inv(s, maxKeys)
    ensures var t := Step(s, Set(key, value, ttlSec, now), maxKeys).0;
            Inv(t, maxKeys) && key in t.data && t.data[key] == Lasting(value, ttlSec, now)
  {
    SetRefines(s, key, Lasting(value, ttlSec, now), maxKeys);
  }

  lemma ReadInTime<V>(s: State<V>, key: string, e: Entry<V>, later: int, maxKeys: nat)
    requires key in s.data && s.data[key] == e
    ensures Step(s, Get(key, later), maxKeys).1 == if later <= e.expiresAt then Some(e.value) else None
  {
  }

  // ---------- what a write drops ----------

  /** A write drops at most one other present entry, the one used longest ago. */
  lemma SetDropsOldestOnly<V>(s: State<V>, key: string, entry: Entry<V>, maxKeys: nat)
    requires Inv(s, maxKeys)
    ensures var t, others := AfterSet(s, key, entry, maxKeys), Without(Abs(s).order, key);
            if |others| < maxKeys then t.data == s.data[key := entry]
            else others != [] && t.data == (s.data - {others[0]})[key := entry]
  {
    SetRefines(s, key, entry, maxKeys);
    DroppedKey(s, key, maxKeys);
    RoomRefines(AfterDelete(s, key), maxKeys);
    var others := Without(Abs(s).order, key);
    Overwrite(s.data, key, entry);
    if others != [] {
      WithoutMembers(Abs(s).order, key);
      assert others[0] in others;
      DropThenWrite(s.data, others[0], key, entry);
    }
  }

  lemma Overwrite<V>(data: map<string, Entry<V>>, key: string, entry: Entry<V>)
    ensures (data - {key})[key := entry] == data[key := entry]
  {
  }

  lemma DropThenWrite<V>(data: map<string, Entry<V>>, other: string, key: string, entry: Entry<V>)
    requires other != key
    ensures ((data - {key}) - {other})[key := entry] == (data - {other})[key := entry]
  {
  }

  /** The eviction counter counts dropped entries only if the oldest key is still in NodeCache. */
  lemma EvictionCount<V>(s: State<V>, key: string, entry: Entry<V>, maxKeys: nat)
    requires Inv(s, maxKeys)
    ensures var t, d := AfterSet(s, key, entry, maxKeys), AfterDelete(s, key);
            var dropped := if |d.data| < maxKeys then 0 else 1;
            && t.evictions >= s.evictions + dropped
            && (t.evictions == s.evictions + dropped <==>
                  |d.data| < maxKeys || (d.recency != [] && d.recency[0] in d.data))
  {
    DroppedKey(s, key, maxKeys);
    var d := AfterDelete(s, key);
    RoomRefines(d, maxKeys);
    if |d.data| == maxKeys {
      assert Present(d.recency, d.data.Keys) != [];
      PoppedCount(d.recency, d.data.Keys);
    }
  }

  lemma PoppedCount(r: seq<string>, keys: set<string>)
    requires r != []
    ensures Popped(r, keys) >= 1
    ensures Present(r, keys) != [] ==> (Popped(r, keys) == 1 <==> r[0] in keys)
  {
    assert r[0] !in keys ==> Present(r, keys) == Present(r[1..], keys);
    if r[1..] == [] {
      assert Present(r[1..], keys) == [];
    } else {
      assert Popped(r[1..], keys) >= 1;
    }
  }

  // ---------- keys left behind in `recency` ----------

  /** No key of `recency` has been lost by NodeCache. */
  ghost predicate NoGhosts<V>(s: State<V>) {
    forall k | k in s.recency :: k in s.data
  }

  lemma {:induction false} RecencyCount(r: seq<string>, keys: set<string>)
    requires Distinct(r) && forall k | k in r :: k in keys
    ensures Present(r, keys) == r
  {
    if r != [] {
      DistinctTail(r);
      assert r == [r[0]] + r[1..];
      RecencyCount(r[1..], keys);
    }
  }

  lemma NoGhostsCount<V>(s: State<V>, maxKeys: nat)
    requires Inv(s, maxKeys) && NoGhosts(s)
    ensures |s.recency| == |s.data| <= maxKeys
  {
    PresentCount(s.recency, s.data.Keys);
    RecencyCount(s.recency, s.data.Keys);
    assert |s.data| == |s.data.Keys|;
  }

  /** Only a background sweep that finds something leaves keys behind; without, recency fits the limit. */
  lemma GhostsOnlyFromSweeps<V>(s: State<V>, op: Op<V>, maxKeys: nat)
    requires Inv(s, maxKeys) && NoGhosts(s)
    ensures |s.recency| == |s.data| <= maxKeys
    ensures NoGhosts(Step(s, op, maxKeys).0) <==> op.Sweep? ==> forall k | k in s.data :: !Expired(s.data[k], op.now)
  {
    NoGhostsCount(s, maxKeys);
    if op.Sweep? {
      assert forall k | k in s.data :: k in s.recency;
    } else {
      DroppedKey(s, op.key, maxKeys);
      WithoutMembers(s.recency, op.key);
      if op.Set? {
        NoGhostsAfterSet(s, op.key, Lasting(op.value, op.ttlSec, op.now), maxKeys);
      }
    }
  }

  lemma NoGhostsAfterRoom<V>(d: State<V>, maxKeys: nat)
    requires Inv(d, maxKeys) && NoGhosts(d)
    ensures NoGhosts(WithRoom(d, maxKeys))
  {
    if |d.data| == maxKeys {
      FullHasKeys(d);
      var u := Popped1(d);
      Removed(d.data, d.recency[0]);
      DistinctTail(d.recency);
      assert d.recency == [d.recency[0]] + u.recency;
      assert WithRoom(u, maxKeys) == u;
    }
  }

  lemma NoGhostsAfterDelete<V>(s: State<V>, key: string)
    requires NoGhosts(s)
    ensures NoGhosts(AfterDelete(s, key))
  {
    WithoutMembers(s.recency, key);
  }

  lemma NoGhostsAfterSet<V>(s: State<V>, key: string, entry: Entry<V>, maxKeys: nat)
    requires Inv(s, maxKeys) && NoGhosts(s)
    ensures NoGhosts(AfterSet(s, key, entry, maxKeys))
  {
    var d := AfterDelete(s, key);
    DroppedKey(s, key, maxKeys);
    NoGhostsAfterDelete(s, key);
    NoGhostsAfterRoom(d, maxKeys);
    var t := WithRoom(d, maxKeys);
    WithoutMembers(t.recency, key);
  }

  /** No sweep of the run finds an expired entry. */
  predicate SweepsFindNothing<V>(s: State<V>, ops: seq<Op<V>>, maxKeys: nat)
    decreases |ops|
  {
    ops != [] ==>
      && (ops[0].Sweep? ==> forall k | k in s.data :: !Expired(s.data[k], ops[0].now))
      && SweepsFindNothing(Step(s, ops[0], maxKeys).0, ops[1..], maxKeys)
  }

  /** At no point of the run is there a lost key, and recency has one key per entry. */
  ghost predicate NeverGhosts<V>(s: State<V>, ops: seq<Op<V>>, maxKeys: nat)
    decreases |ops|
  {
    && NoGhosts(s) && |s.recency| == |s.data| <= maxKeys
    && (ops != [] ==> NeverGhosts(Step(s, ops[0], maxKeys).0, ops[1..], maxKeys))
  }

  lemma {:induction false} NeverGhostsFrom<V>(s: State<V>, ops: seq<Op<V>>, maxKeys: nat)
    requires Inv(s, maxKeys) && NoGhosts(s)
    ensures NeverGhosts(s, ops, maxKeys) <==> SweepsFindNothing(s, ops, maxKeys)
    decreases |ops|
  {
    NoGhostsCount(s, maxKeys);
    if ops != [] {
      GhostsOnlyFromSweeps(s, ops[0], maxKeys);
      StepRefines(s, ops[0], maxKeys);
      if NoGhosts(Step(s, ops[0], maxKeys).0) {
        NeverGhostsFrom(Step(s, ops[0], maxKeys).0, ops[1..], maxKeys);
      }
    }
  }

  /** Over every run: recency has exactly the present keys throughout if and only if no sweep finds anything. */
  lemma RecencyExactly<V>(ops: seq<Op<V>>, maxKeys: nat)
    requires maxKeys >= 1
    ensures NeverGhosts(Empty(), ops, maxKeys) <==> SweepsFindNothing(Empty(), ops, maxKeys)
  {
    NeverGhostsFrom(Empty(), ops, maxKeys);
  }

  function Name(n: nat): (s: string)
    ensures |s| == n
  {
    seq(n, _ => 'k')
  }

  /** `n` keys written for a second each, and each swept away before the next write. */
  function Churn<V>(n: nat, value: V): seq<Op<V>> {
    if n == 0 then [] else Churn(n - 1, value) + [Set(Name(n), value, 1, 1001 * n)] + [Sweep(1001 * n + 1001)]
  }

  lemma ChurnOnce<V>(s: State<V>, key: string, value: V, now: int, maxKeys: nat)
    requires s.data == map[] && key !in s.recency && maxKeys >= 1
    ensures AfterSweep(AfterSet(s, key, Lasting(value, 1, now), maxKeys), now + 1001)
            == State(map[], s.recency + [key], s.evictions)
  {
    WithoutMembers(s.recency, key);
    var d := AfterDelete(s, key);
    assert d == s;
    assert |d.data| == 0;
    assert WithRoom(d, maxKeys) == d;
    assert Unexpired(map[key := Lasting(value, 1, now)], now + 1001) == map[];
  }

  lemma ChurnGrows<V>(s: State<V>, n: nat, value: V, maxKeys: nat)
    requires maxKeys >= 1 && n > 0 && s.data == map[] && |s.recency| == n - 1 && forall k | k in s.recency :: |k| <= n - 1
    ensures var t := AfterSweep(AfterSet(s, Name(n), Lasting(value, 1, 1001 * n), maxKeys), 1001 * n + 1001);
            t.data == map[] && |t.recency| == n && forall k | k in t.recency :: |k| <= n
  {
    ChurnOnce(s, Name(n), value, 1001 * n, maxKeys);
  }

  /** `recency` has no bound of its own: whatever number of keys is allowed, it can hold any number. */
  lemma {:induction false} RecencyUnbounded<V>(n: nat, value: V, maxKeys: nat)
    requires maxKeys >= 1
    ensures var s := Run(Empty(), Churn(n, value), maxKeys).0;
            && s.data == map[] && |s.recency| == n && forall k | k in s.recency :: |k| <= n
  {
    if n > 0 {
      RecencyUnbounded(n - 1, value, maxKeys);
      var xs, write := Churn(n - 1, value), Set(Name(n), value, 1, 1001 * n);
      ChurnGrows(Run(Empty<V>(), xs, maxKeys).0, n, value, maxKeys);
      RunAppend(Empty<V>(), xs, write, maxKeys);
      RunAppend(Empty<V>(), xs + [write], Sweep(1001 * n + 1001), maxKeys);
    }
  }
}
