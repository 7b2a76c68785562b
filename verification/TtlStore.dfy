/**
 The in-process stand-in for Redis: entries that expire lazily, when somebody looks at them, against a map
 from which entries vanish at the instant they expire.
 */
module TtlStore {
  import opened Common

  type Key = string
  type Time = real

  datatype Entry = Entry(value: string, expiry: Option<Time>)

  predicate Dead(e: Entry, now: Time) {
    e.expiry.Some? && e.expiry.value <= now
  }

  function Live(store: map<Key, Entry>, now: Time): map<Key, Entry> {
    map k | k in store && !Dead(store[k], now) :: store[k]
  }

  /** `cache_set` passes on a time to live only if it is truthy: 0 means for ever. */
  function Lasting(value: string, ttl: Option<int>, now: Time): Entry {
    if ttl.None? || ttl.value == 0 then Entry(value, None) else Entry(value, Some(now + ttl.value as real))
  }

  datatype Op =
    | Get(key: Key)
    | Put(key: Key, value: string, ttl: Option<int>)
    | Delete(keys: seq<Key>)
    | Scan(pattern: iset<Key>)
    | DeletePattern(pattern: iset<Key>)
    | Clear

  datatype Seen = Nothing | Value(value: string) | Count(n: nat) | Keys(keys: set<Key>)

  function KeySet(keys: seq<Key>): set<Key> {
    if keys == [] then {} else KeySet(keys[..|keys| - 1]) + {keys[|keys| - 1]}
  }

  function Matching(store: map<Key, Entry>, pattern: iset<Key>, now: Time): set<Key> {
    set k | k in store && !Dead(store[k], now) && k in pattern
  }

  /** What an operation leaves in the store and what it shows its caller, at one instant. */
  function Step(store: map<Key, Entry>, op: Op, now: Time): (map<Key, Entry>, Seen) {
    match op
    case Get(k) =>
      if k !in store then (store, Nothing)
      else if Dead(store[k], now) then (store - {k}, Nothing)
      else (store, Value(store[k].value))
    case Put(k, v, ttl) => (store[k := Lasting(v, ttl, now)], Nothing)
    case Delete(keys) => (store - KeySet(keys), Count(|KeySet(keys) * store.Keys|))
    case Scan(p) => (Live(store, now), Keys(Matching(store, p, now)))
    case DeletePattern(p) => (Live(store, now) - Matching(store, p, now), Count(|Matching(store, p, now)|))
    case Clear => (map[], Nothing)
  }

  /******* The store of the source *******/

  class MemoryStore {
    var store: map<Key, Entry>

    constructor ()
      ensures store == map[]
    {
      store := map[];
    }

    /** `_expired`: looking at a dead entry removes it. */
    method Expired(key: Key, now: Time) returns (gone: bool)
      modifies this
      ensures gone <==> key !in old(store) || Dead(old(store)[key], now)
      ensures store == if gone then old(store) - {key} else old(store)
    {
      if key !in store { return true; }
      var expiry := store[key].expiry;
      if expiry.Some? && expiry.value <= now {
        store := store - {key};
        return true;
      }
      return false;
    }

    method GetValue(key: Key, now: Time) returns (value: Option<string>)
      modifies this
      ensures store == Step(old(store), Get(key), now).0
      ensures Step(old(store), Get(key), now).1 == if value.None? then Nothing else Value(value.value)
    {
      var gone := Expired(key, now);
      return if gone then None else Some(store[key].value);
    }

    method SetValue(key: Key, value: string)
      modifies this
      ensures store == old(store)[key := Entry(value, None)]
    {
      store := store[key := Entry(value, None)];
    }

    method SetEx(key: Key, ttl: int, value: string, now: Time)
      modifies this
      ensures store == old(store)[key := Entry(value, Some(now + ttl as real))]
    {
      store := store[key := Entry(value, Some(now + ttl as real))];
    }

    method CacheSet(key: Key, value: string, ttl: Option<int>, now: Time)
      modifies this
      ensures store == Step(old(store), Put(key, value, ttl), now).0
    {
      if ttl.Some? && ttl.value != 0 { SetEx(key, ttl.value, value, now); } else { SetValue(key, value); }
    }

    method DeleteKeys(keys: seq<Key>) returns (removed: nat)
      modifies this
      ensures store == old(store) - KeySet(keys) && removed == |KeySet(keys) * old(store).Keys|
    {
      removed := 0;
      ghost var done: set<Key> := {};
      ghost var base := store;
      assert base - {} == base && {} * base.Keys == {};
      for i := 0 to |keys|
        invariant done == KeySet(keys[..i])
        invariant store == base - done && removed == |done * base.Keys|
      {
        KeySetSnoc(keys, i);
        CountOneMore(done, keys[i], base.Keys);
        MapMinusOne(base, done, keys[i]);
        if keys[i] in store {
          store := store - {keys[i]};
          removed := removed + 1;
        }
        done := done + {keys[i]};
      }
      assert keys[..|keys|] == keys;
    }

    /** `delete` with one key, its count ignored. */
    method DeleteOne(key: Key)
      modifies this
      ensures store == old(store) - {key}
    {
      var _ := DeleteKeys([key]);
      assert KeySet([key]) == {key};
    }

    /** `scan_iter`, collected. The clock is read again for each key, at some instant from `first` to `last`. */
    method ScanKeys(order: seq<Key>, pattern: iset<Key>, clock: seq<Time>, first: Time, last: Time) returns (found: set<Key>)
      requires Lists(order, store) && |clock| == |order| && Within(clock, first, last)
      modifies this
      ensures Matching(old(store), pattern, last) <= found <= Matching(old(store), pattern, first)
      ensures Live(old(store), last) == Live(store, last)
      ensures first == last ==> (store, Keys(found)) == Step(old(store), Scan(pattern), first)
    {
      found := {};
      ghost var base, seen: set<Key>, gone: set<Key> := store, {}, {};
      assert base - {} == base;
      for i := 0 to |order|
        invariant seen == KeySet(order[..i]) && store == base - gone
        invariant Swept(base, seen, gone, found, pattern, first, last)
      {
        var key := order[i];
        FreshKey(order, i);
        var now := clock[i];
        SweptOne(base, seen, gone, found, pattern, first, last, key, now);
        MapMinusOne(base, gone, key);
        seen := seen + {key};
        var expired := Expired(key, now);
        if expired {
          gone := gone + {key};
        } else if key in pattern {
          found := found + {key};
        }
      }
      assert order[..|order|] == order;
      SweptAll(base, gone, found, pattern, first, last);
    }

    /** The loop of `cache_delete_pattern`: every key that the scan yields is deleted and counted. */
    method DeleteYielded(order: seq<Key>, pattern: iset<Key>, clock: seq<Time>, first: Time, last: Time)
      returns (deleted: nat, ghost gone: set<Key>, ghost found: set<Key>)
      requires Lists(order, store) && |clock| == |order| && Within(clock, first, last)
      modifies this
      ensures Swept(old(store), KeySet(order), gone, found, pattern, first, last)
      ensures Left(old(store), store, gone, found) && deleted == |found|
    {
      deleted, gone, found := 0, {}, {};
      ghost var base := store;
      for i := 0 to |order|
        invariant Left(base, store, gone, found) && deleted == |found|
        invariant Swept(base, KeySet(order[..i]), gone, found, pattern, first, last)
      {
        var key := order[i];
        FreshKey(order, i);
        SweptOne(base, KeySet(order[..i]), gone, found, pattern, first, last, key, clock[i]);
        var expired := Expired(key, clock[i]);
        if expired {
          gone := gone + {key};
        } else if key in pattern {
          DeleteOne(key);
          found := found + {key};
          deleted := deleted + 1;
        }
      }
      assert order[..|order|] == order;
    }

    /** `cache_delete_pattern`. */
    method CacheDeletePattern(order: seq<Key>, pattern: iset<Key>, clock: seq<Time>, first: Time, last: Time) returns (deleted: nat)
      requires Lists(order, store) && |clock| == |order| && Within(clock, first, last)
      modifies this
      ensures |Matching(old(store), pattern, last)| <= deleted <= |Matching(old(store), pattern, first)|
      ensures Matching(store, pattern, last) == {}
      ensures Live(store, last) == Live(old(store), last) - Matching(old(store), pattern, last)
      ensures first == last ==> (store, Count(deleted)) == Step(old(store), DeletePattern(pattern), first)
    {
      ghost var gone, found;
      deleted, gone, found := DeleteYielded(order, pattern, clock, first, last);
      SweptAll(old(store), gone, found, pattern, first, last);
      assert store == old(store) - (gone + found);
      SubsetSize(Matching(old(store), pattern, last), found);
      SubsetSize(found, Matching(old(store), pattern, first));
    }
  }

  /** What is left of a store without the keys in two sets. */
  ghost predicate Left(base: map<Key, Entry>, store: map<Key, Entry>, gone: set<Key>, found: set<Key>) {
    && (forall k :: k in store <==> k in base && k !in gone && k !in found)
    && (forall k <- store :: store[k] == base[k])
  }

  /** A scan has looked at the keys in `seen`: those in `gone` had expired, the others had not, and `found` are
      the matches among these. */
  ghost predicate Swept(
    store: map<Key, Entry>, seen: set<Key>, gone: set<Key>, found: set<Key>, pattern: iset<Key>, first: Time, last: Time)
  {
    && gone <= seen <= store.Keys
    && (forall k <- gone :: Dead(store[k], last))
    && (forall k <- seen :: k !in gone ==> !Dead(store[k], first))
    && (forall k :: k in found <==> k in seen && k !in gone && k in pattern)
  }

  lemma SweptOne(store: map<Key, Entry>, seen: set<Key>, gone: set<Key>, found: set<Key>, pattern: iset<Key>,
                 first: Time, last: Time, key: Key, now: Time)
    requires Swept(store, seen, gone, found, pattern, first, last) && key in store && key !in seen && first <= now <= last
    ensures Dead(store[key], now) ==> Swept(store, seen + {key}, gone + {key}, found, pattern, first, last)
    ensures !Dead(store[key], now) ==>
      Swept(store, seen + {key}, gone, if key in pattern then found + {key} else found, pattern, first, last)
  {}

  lemma SweptAll(store: map<Key, Entry>, gone: set<Key>, found: set<Key>, pattern: iset<Key>, first: Time, last: Time)
    requires Swept(store, store.Keys, gone, found, pattern, first, last) && first <= last
    ensures Matching(store, pattern, last) <= found <= Matching(store, pattern, first)
    ensures Live(store - gone, last) == Live(store, last)
    ensures Live(store - (gone + found), last) == Live(store, last) - Matching(store, pattern, last)
    ensures Matching(store - (gone + found), pattern, last) == {}
    ensures first == last ==> store - gone == Live(store, first) && found == Matching(store, pattern, first)
    ensures first == last ==> store - (gone + found) == Live(store, first) - found
  {}

  lemma CountOneMore(done: set<Key>, key: Key, held: set<Key>)
    ensures |(done + {key}) * held| == |done * held| + (if key in held && key !in done then 1 else 0)
  {
    assert (done + {key}) * held == if key in held && key !in done then done * held + {key} else done * held;
  }

  /** The keys of the store, in the order of the dictionary. */
  ghost predicate Lists(order: seq<Key>, store: map<Key, Entry>) {
    KeySet(order) == store.Keys && forall i, j :: 0 <= i < j < |order| ==> order[i] != order[j]
  }

  lemma {:induction false} KeySetHas(keys: seq<Key>, k: Key)
    ensures k in KeySet(keys) <==> exists i :: 0 <= i < |keys| && keys[i] == k
  {
    if keys != [] { KeySetHas(keys[..|keys| - 1], k); }
  }

  lemma FreshKey(order: seq<Key>, i: nat)
    requires i < |order| && forall i, j :: 0 <= i < j < |order| ==> order[i] != order[j]
    ensures order[i] !in KeySet(order[..i]) && order[i] in KeySet(order)
    ensures KeySet(order[..i + 1]) == KeySet(order[..i]) + {order[i]}
  {
    KeySetSnoc(order, i);
    KeySetHas(order[..i], order[i]);
    KeySetHas(order, order[i]);
  }

  ghost predicate Within(clock: seq<Time>, first: Time, last: Time) {
    first <= last && forall i :: 0 <= i < |clock| ==> first <= clock[i] <= last
  }

  lemma KeySetSnoc(keys: seq<Key>, i: nat)
    requires i < |keys|
    ensures KeySet(keys[..i + 1]) == KeySet(keys[..i]) + {keys[i]}
  {
    assert keys[..i + 1][..i] == keys[..i];
  }

  lemma MapMinusOne(base: map<Key, Entry>, done: set<Key>, key: Key)
    ensures (base - done) - {key} == base - (done + {key})
    ensures key !in base - done ==> base - done == base - (done + {key})
  {}

  /******* Against a map that forgets at once *******/

  /** The plain operation on a map from which expired entries are gone before and after. */
  function EagerStep(m: map<Key, Entry>, op: Op, now: Time): (map<Key, Entry>, Seen) {
    var live := Live(m, now);
    match op
    case Get(k) => (live, if k in live then Value(live[k].value) else Nothing)
    case Put(k, v, ttl) => (Live(live[k := Lasting(v, ttl, now)], now), Nothing)
    case Delete(keys) => (live - KeySet(keys), Count(|KeySet(keys) * live.Keys|))
    case Scan(p) => (live, Keys(set k | k in live && k in p))
    case DeletePattern(p) => (map k | k in live && k !in p :: live[k], Count(|set k | k in live && k in p|))
    case Clear => (map[], Nothing)
  }

  datatype Timed = Timed(op: Op, at: Time)

  ghost predicate InOrder(ops: seq<Timed>) {
    forall i, j :: 0 <= i < j < |ops| ==> ops[i].at <= ops[j].at
  }

  function LazyAfter(ops: seq<Timed>): (map<Key, Entry>, Seen) {
    if ops == [] then (map[], Nothing)
    else Step(LazyAfter(ops[..|ops| - 1]).0, ops[|ops| - 1].op, ops[|ops| - 1].at)
  }

  function EagerAfter(ops: seq<Timed>): (map<Key, Entry>, Seen) {
    if ops == [] then (map[], Nothing)
    else EagerStep(EagerAfter(ops[..|ops| - 1]).0, ops[|ops| - 1].op, ops[|ops| - 1].at)
  }

  /** Entries of the store that have expired and that nobody has looked at since. */
  function Unnoticed(store: map<Key, Entry>, now: Time): set<Key> {
    set k | k in store && Dead(store[k], now)
  }

  lemma LiveLater(store: map<Key, Entry>, t: Time, now: Time)
    requires t <= now
    ensures Live(Live(store, t), now) == Live(store, now)
  {}

  lemma MatchesAlike(store: map<Key, Entry>, p: iset<Key>, now: Time)
    ensures Matching(store, p, now) == set k | k in Live(store, now) && k in p
    ensures Live(Live(store, now) - Matching(store, p, now), now) == map k | k in Live(store, now) && k !in p :: store[k]
  {}

  lemma DeleteCounts(store: map<Key, Entry>, keys: set<Key>, now: Time)
    ensures |keys * store.Keys| == |keys * Live(store, now).Keys| + |keys * Unnoticed(store, now)|
  {
    var live, dead := keys * Live(store, now).Keys, keys * Unnoticed(store, now);
    assert keys * store.Keys == live + dead && live !! dead;
  }

  /** What the lazy operation shows, given what the eager one shows: only `delete` may count more. */
  function LazyView(store: map<Key, Entry>, op: Op, now: Time, eager: Seen): Seen {
    if op.Delete? && eager.Count? then Count(eager.n + |KeySet(op.keys) * Unnoticed(store, now)|) else eager
  }

  lemma GetRefines(store: map<Key, Entry>, k: Key, now: Time)
    ensures var (r, seen), (m, saw) := Step(store, Get(k), now), EagerStep(Live(store, now), Get(k), now); Live(r, now) == m && seen == saw
  {
    LiveLater(store, now, now);
    assert Live(store - {k}, now) == Live(store, now) - {k};
    assert k in store && Dead(store[k], now) ==> Live(store, now) - {k} == Live(store, now);
  }

  lemma LiveMinus(store: map<Key, Entry>, keys: set<Key>, now: Time)
    ensures Live(store - keys, now) == Live(store, now) - keys
  {}

  lemma DeleteRefines(store: map<Key, Entry>, keys: seq<Key>, now: Time)
    ensures var (r, seen), (m, saw) := Step(store, Delete(keys), now), EagerStep(Live(store, now), Delete(keys), now);
      Live(r, now) == m && seen == LazyView(store, Delete(keys), now, saw)
  {
    LiveLater(store, now, now);
    DeleteCounts(store, KeySet(keys), now);
    LiveMinus(store, KeySet(keys), now);
  }

  lemma PutRefines(store: map<Key, Entry>, k: Key, v: string, ttl: Option<int>, now: Time)
    ensures Live(Step(store, Put(k, v, ttl), now).0, now) == EagerStep(Live(store, now), Put(k, v, ttl), now).0
  {
    LiveLater(store, now, now);
    var e := Lasting(v, ttl, now);
    assert Live(store[k := e], now) == Live(Live(store, now)[k := e], now);
  }

  lemma StepRefines(store: map<Key, Entry>, t: Time, op: Op, now: Time)
    requires t <= now
    ensures var (r, seen), (m, saw) := Step(store, op, now), EagerStep(Live(store, t), op, now);
      Live(r, now) == m && seen == LazyView(store, op, now, saw)
  {
    LiveLater(store, t, now);
    LiveLater(store, now, now);
    assert EagerStep(Live(store, t), op, now) == EagerStep(Live(store, now), op, now);
    match op
    case Get(k) => GetRefines(store, k, now);
    case Put(k, v, ttl) => PutRefines(store, k, v, ttl, now);
    case Delete(keys) => DeleteRefines(store, keys, now);
    case Scan(p) => MatchesAlike(store, p, now);
    case DeletePattern(p) => MatchesAlike(store, p, now);
    case Clear =>
  }

  /** For every sequence of operations at monotone times, the live entries are those of the eager map, and every
      operation shows its caller what the eager map would show, but that `delete` also counts the expired entries it
      finds. */
  lemma {:induction false} LazyRefinesEager(ops: seq<Timed>)
    requires ops != [] && InOrder(ops)
    ensures var n := |ops| - 1; var op, now := ops[n].op, ops[n].at;
      && Live(LazyAfter(ops).0, now) == EagerAfter(ops).0
      && LazyAfter(ops).1 == LazyView(LazyAfter(ops[..n]).0, op, now, EagerAfter(ops).1)
  {
    var n := |ops| - 1;
    var before, op, now := ops[..n], ops[n].op, ops[n].at;
    if n == 0 {
      assert Live(map[], now) == map[];
      StepRefines(map[], now, op, now);
    } else {
      LazyRefinesEager(before);
      StepRefines(LazyAfter(before).0, before[n - 1].at, op, now);
    }
  }

  /** Whatever came before, what is put is got back exactly until its time to live has passed; without one, or with 0, for
      ever. */
  lemma PutLastsExactly(ops: seq<Timed>, key: Key, value: string, ttl: Option<int>, at: Time, now: Time)
    ensures LazyAfter(ops + [Timed(Put(key, value, ttl), at)] + [Timed(Get(key), now)]).1 ==
            if ttl.None? || ttl.value == 0 || now < at + ttl.value as real then Value(value) else Nothing
  {
    var put, get := Timed(Put(key, value, ttl), at), Timed(Get(key), now);
    assert (ops + [put])[..|ops|] == ops;
    assert (ops + [put] + [get])[..|ops| + 1] == ops + [put];
  }

  /** `delete` returns the number of live entries it removed exactly when no argument is an expired entry that the
      store still holds. */
  lemma DeleteCountIsExactly(ops: seq<Timed>)
    requires ops != [] && InOrder(ops) && ops[|ops| - 1].op.Delete?
    ensures var n := |ops| - 1; var op, now := ops[n].op, ops[n].at;
      LazyAfter(ops).1 == EagerAfter(ops).1 <==> KeySet(op.keys) !! Unnoticed(LazyAfter(ops[..n]).0, now)
  {
    LazyRefinesEager(ops);
    var n := |ops| - 1;
    ApartIffNone(KeySet(ops[n].op.keys), Unnoticed(LazyAfter(ops[..n]).0, ops[n].at));
  }

  lemma ApartIffNone(a: set<Key>, b: set<Key>)
    ensures a !! b <==> |a * b| == 0
  {
    if a !! b {
      assert a * b == {};
    } else {
      var x :| x in a && x in b;
      assert x in a * b;
    }
  }

  /** It is not always: an entry that lives for one second, deleted after two. */
  lemma LateDeleteCountsMore(key: Key, value: string)
    ensures var ops := [Timed(Put(key, value, Some(1)), 0.0), Timed(Delete([key]), 2.0)];
      InOrder(ops) && LazyAfter(ops).1 == Count(1) && EagerAfter(ops).1 == Count(0)
  {
    LazyLateDelete(key, value);
    EagerLateDelete(key, value);
  }

  lemma LazyLateDelete(key: Key, value: string)
    ensures LazyAfter([Timed(Put(key, value, Some(1)), 0.0), Timed(Delete([key]), 2.0)]).1 == Count(1)
  {
    var put, late := Timed(Put(key, value, Some(1)), 0.0), Timed(Delete([key]), 2.0);
    assert [put, late][..1] == [put] && [put][..0] == [];
    var e := Lasting(value, Some(1), 0.0);
    var store: map<Key, Entry> := map[key := e];
    assert LazyAfter([put]).0 == store;
    OneKeyCount(key, store);
  }

  lemma OneKeyCount(key: Key, store: map<Key, Entry>)
    requires key in store
    ensures |KeySet([key]) * store.Keys| == 1
  {
    assert KeySet([key]) == {key} by { assert [key][..0] == []; }
    assert {key} * store.Keys == {key};
  }

  lemma EagerLateDelete(key: Key, value: string)
    ensures EagerAfter([Timed(Put(key, value, Some(1)), 0.0), Timed(Delete([key]), 2.0)]).1 == Count(0)
  {
    var put, late := Timed(Put(key, value, Some(1)), 0.0), Timed(Delete([key]), 2.0);
    assert [put, late][..1] == [put] && [put][..0] == [];
    var m := EagerAfter([put]).0;
    var e := Lasting(value, Some(1), 0.0);
    assert EagerAfter([]) == (map[], Nothing);
    assert m == EagerStep(map[], put.op, 0.0).0;
    assert Live(map[], 0.0) == map[] && !Dead(e, 0.0);
    assert m == map[key := e];
    assert Dead(e, 2.0) && Live(m, 2.0) == map[];
    assert KeySet([key]) * Live(m, 2.0).Keys == {};
  }
}
