/**
 The pool as one task sees it: uncontended calls and idle sweeps, with strictly increasing clock
 readings and successful connects. The pool is an LRU list, although it only keeps time stamps.
 */
module Lru {
  import opened Common
  import opened PoolModel

  /******* The abstract list, most recent first *******/

  /** A call: its key moves to the front, or enters there, in the place of the last one if the list is full. */
  function Touch(l: seq<Key>, key: Key, cap: nat): seq<Key> {
    if key in l then [key] + Without(l, key)
    else if |l| < cap then [key] + l
    else [key] + l[..|l| - (if l == [] then 0 else 1)]
  }

  /******* What a bounded list holds, from the history of calls alone *******/

  /** Every key ever called, by last call, most recent first. */
  function ByLastCall(calls: seq<Key>): seq<Key> {
    if calls == [] then [] else [calls[|calls| - 1]] + Without(ByLastCall(calls[..|calls| - 1]), calls[|calls| - 1])
  }

  /** The list after a history of calls. */
  function AfterCalls(calls: seq<Key>, cap: nat): seq<Key> {
    if calls == [] then [] else Touch(AfterCalls(calls[..|calls| - 1], cap), calls[|calls| - 1], cap)
  }

  lemma {:induction false} ByLastCallIsDistinct(calls: seq<Key>)
    ensures Distinct(ByLastCall(calls))
  {
    if calls != [] {
      ByLastCallIsDistinct(calls[..|calls| - 1]);
      WithoutIsRemoval(ByLastCall(calls[..|calls| - 1]), calls[|calls| - 1]);
      var rest := Without(ByLastCall(calls[..|calls| - 1]), calls[|calls| - 1]);
      assert forall j :: 0 <= j < |rest| ==> rest[j] in rest;
    }
  }

  function Prefix(l: seq<Key>, n: nat): seq<Key> {
    if |l| <= n then l else l[..n]
  }

  lemma PrefixOfConcat(a: seq<Key>, b: seq<Key>, n: nat)
    requires |a| == n || (b == [] && |a| <= n)
    ensures Prefix(a + b, n) == a
  {
    assert (a + b)[..|a|] == a;
  }

  lemma TouchPresent(top: seq<Key>, below: seq<Key>, key: Key, cap: nat)
    requires Distinct(top) && key in top && key !in below && (|top| == cap || (below == [] && |top| <= cap))
    ensures Touch(top, key, cap) == Prefix([key] + Without(top + below, key), cap)
  {
    var rest := Without(top, key);
    WithoutConcat(top, below, key);
    WithoutAbsent(below, key);
    WithoutIsRemoval(top, key);
    assert Without(top + below, key) == rest + below;
    assert [key] + (rest + below) == [key] + rest + below;
    PrefixOfConcat([key] + rest, below, cap);
  }

  lemma TouchAbsent(top: seq<Key>, below: seq<Key>, key: Key, cap: nat)
    requires key !in top && cap >= 1 && (|top| == cap || (below == [] && |top| <= cap))
    ensures Touch(top, key, cap) == Prefix([key] + Without(top + below, key), cap)
  {
    WithoutConcat(top, below, key);
    WithoutAbsent(top, key);
    if |top| < cap {
      PrefixOfConcat([key] + top, [], cap);
      assert [key] + (top + Without([], key)) == [key] + top + [];
    } else {
      var last := [top[cap - 1]] + Without(below, key);
      PrefixOfConcat([key] + top[..cap - 1], last, cap);
      assert [key] + (top + Without(below, key)) == [key] + top[..cap - 1] + last;
    }
  }

  /** Touching the first `cap` keys of a stack gives the first `cap` keys of the stack with `key` on top. */
  lemma TouchPrefix(stack: seq<Key>, key: Key, cap: nat)
    requires Distinct(stack) && cap >= 1
    ensures Touch(Prefix(stack, cap), key, cap) == Prefix([key] + Without(stack, key), cap)
  {
    var n := if |stack| <= cap then |stack| else cap;
    var top, below := stack[..n], stack[n..];
    assert stack == top + below && Prefix(stack, cap) == top;
    if key in top {
      var i :| 0 <= i < n && top[i] == key;
      assert key !in below by { assert forall j :: n <= j < |stack| ==> stack[j] != stack[i]; }
      TouchPresent(top, below, key, cap);
    } else {
      TouchAbsent(top, below, key, cap);
    }
  }

  /** After any history of calls the list holds exactly the `cap` keys called most recently, in order. */
  lemma {:induction false} HoldsMostRecentlyCalled(calls: seq<Key>, cap: nat)
    requires cap >= 1
    ensures AfterCalls(calls, cap) == Prefix(ByLastCall(calls), cap)
  {
    if calls != [] {
      HoldsMostRecentlyCalled(calls[..|calls| - 1], cap);
      ByLastCallIsDistinct(calls[..|calls| - 1]);
      TouchPrefix(ByLastCall(calls[..|calls| - 1]), calls[|calls| - 1], cap);
    }
  }

  lemma {:induction false} DistinctSize(l: seq<Key>, keys: set<Key>)
    requires Distinct(l) && forall k :: k in l <==> k in keys
    ensures |l| == |keys|
  {
    if l != [] {
      assert forall k :: k in l <==> k == l[0] || k in l[1..];
      assert l[0] !in l[1..];
      DistinctSize(l[1..], keys - {l[0]});
    }
  }

  /******* The pool *******/

  /** The fields of `_Entry` that matter without contention. */
  datatype Connection = Connection(connected: bool, lastUsed: int)

  function Keys(l: seq<Key>): set<Key> {
    set k | k in l
  }

  /** `l` lists the keys of `m` from the latest stamp to the earliest; every entry is connected. */
  ghost predicate Represents(l: seq<Key>, m: map<Key, Connection>, clock: int) {
    && Keys(l) == m.Keys
    && (forall i, j :: 0 <= i < j < |l| ==> Later(m, l[i], l[j]))
    && (forall k <- m :: m[k].connected && m[k].lastUsed <= clock)
  }

  predicate Later(m: map<Key, Connection>, k: Key, j: Key) {
    k in m && j in m && m[k].lastUsed > m[j].lastUsed
  }

  lemma RepresentsSize(l: seq<Key>, m: map<Key, Connection>, clock: int)
    requires Represents(l, m, clock)
    ensures Distinct(l) && |l| == |m|
  {
    assert forall k :: k in l <==> k in Keys(l);
    DistinctSize(l, m.Keys);
  }

  /** Dropping entries from the end of the list. */
  lemma CutRepresents(l: seq<Key>, m: map<Key, Connection>, clock: int, n: nat, rest: map<Key, Connection>)
    requires Represents(l, m, clock) && n <= |l|
    requires rest.Keys == Keys(l[..n]) && forall k <- rest :: k in m && rest[k] == m[k]
    ensures Represents(l[..n], rest, clock)
  {
    forall i, j | 0 <= i < j < n ensures Later(rest, l[i], l[j]) {
      assert Later(m, l[i], l[j]) && l[..n][i] in Keys(l[..n]) && l[..n][j] in Keys(l[..n]);
    }
  }

  /** A new latest entry. */
  lemma PushRepresents(l: seq<Key>, m: map<Key, Connection>, clock: int, key: Key, now: int)
    requires Represents(l, m, clock) && clock < now && key !in l
    ensures Represents([key] + l, m[key := Connection(true, now)], now)
  {
    var r, m' := [key] + l, m[key := Connection(true, now)];
    assert Keys(r) == Keys(l) + {key};
    forall i, j | 0 <= i < j < |r| ensures Later(m', r[i], r[j]) {
      assert l[j - 1] in Keys(l);
      if i > 0 { assert Later(m, l[i - 1], l[j - 1]) && l[i - 1] in l && l[j - 1] in l; }
    }
  }

  /** A removal from anywhere. */
  lemma {:induction false} RemoveRepresents(l: seq<Key>, m: map<Key, Connection>, clock: int, key: Key)
    requires Represents(l, m, clock)
    ensures Represents(Without(l, key), m - {key}, clock)
  {
    WithoutIsRemoval(l, key);
    assert Keys(Without(l, key)) == Keys(l) - {key};
    RemoveKeepsOrder(l, key, m);
    var r := Without(l, key);
    forall i, j | 0 <= i < j < |r| ensures Later(m - {key}, r[i], r[j]) {
      assert Later(m, r[i], r[j]) && r[i] in Keys(r) && r[j] in Keys(r);
    }
  }

  lemma {:induction false} RemoveKeepsOrder(l: seq<Key>, key: Key, m: map<Key, Connection>)
    requires forall i, j :: 0 <= i < j < |l| ==> Later(m, l[i], l[j])
    ensures var r := Without(l, key); forall i, j :: 0 <= i < j < |r| ==> Later(m, r[i], r[j])
  {
    if l != [] {
      RemoveKeepsOrder(l[1..], key, m);
      WithoutIsRemoval(l[1..], key);
      var rest := Without(l[1..], key);
      forall j | 0 <= j < |rest| ensures Later(m, l[0], rest[j]) {
        assert rest[j] in l[1..];
        var i :| 0 <= i < |l[1..]| && l[1..][i] == rest[j];
        assert Later(m, l[0], l[i + 1]);
      }
    }
  }

  lemma RepresentsWithoutLast(l: seq<Key>, m: map<Key, Connection>, clock: int)
    requires Represents(l, m, clock) && l != []
    ensures Keys(l[..|l| - 1]) == m.Keys - {l[|l| - 1]}
  {
    RepresentsSize(l, m, clock);
    KeysWithoutLast(l);
    var n := |l| - 1;
    assert forall i :: 0 <= i < n ==> l[..n][i] == l[i] && Later(m, l[i], l[n]);
  }

  lemma KeysWithoutLast(l: seq<Key>)
    requires l != []
    ensures Keys(l) == Keys(l[..|l| - 1]) + {l[|l| - 1]}
  {
    assert l == l[..|l| - 1] + [l[|l| - 1]];
  }

  lemma EarliestIsLast(l: seq<Key>, m: map<Key, Connection>, clock: int, k: Key)
    requires Represents(l, m, clock) && k in m && forall j <- m :: m[k].lastUsed <= m[j].lastUsed
    ensures l != [] && k == l[|l| - 1]
  {
    assert k in Keys(l);
    var i :| 0 <= i < |l| && l[i] == k;
    var last := l[|l| - 1];
    assert i < |l| - 1 ==> Later(m, k, last);
  }

  lemma MoveToFront(l: seq<Key>, m: map<Key, Connection>, clock: int, key: Key, now: int)
    requires Represents(l, m, clock) && clock < now && key in m
    ensures Represents([key] + Without(l, key), m[key := Connection(true, now)], now)
    ensures key in l && |Without(l, key)| == |l| - 1
  {
    RemovePresent(l, m, clock, key);
    RemoveRepresents(l, m, clock, key);
    PushRepresents(Without(l, key), m - {key}, clock, key, now);
    PutBack(m, key, Connection(true, now));
  }

  lemma PutBack(m: map<Key, Connection>, key: Key, c: Connection)
    ensures (m - {key})[key := c] == m[key := c]
  {}

  lemma RemovePresent(l: seq<Key>, m: map<Key, Connection>, clock: int, key: Key)
    requires Represents(l, m, clock) && key in m
    ensures key in l && key !in Without(l, key) && |Without(l, key)| == |l| - 1
  {
    assert key in Keys(l);
    RepresentsSize(l, m, clock);
    WithoutIsRemoval(l, key);
  }

  class Pool {
    const maxSize: int
    var entries: map<Key, Connection>
    var clock: int

    /** The pooled keys, most recently used first. */
    ghost var recency: seq<Key>

    /** At least one entry fits: a pool of capacity zero or less evicts and then inserts anyway. */
    ghost function Capacity(): nat {
      if maxSize < 1 then 1 else maxSize
    }

    ghost predicate Valid()
      reads this
    {
      Represents(recency, entries, clock) && |recency| <= Capacity()
    }

    constructor (maxSize: int, clock: int)
      ensures Valid() && recency == [] && this.maxSize == maxSize && this.clock == clock
    {
      this.maxSize, this.clock := maxSize, clock;
      entries := map[];
      recency := [];
    }

    /** `min(candidates, key=last_used)`, every entry being unlocked. */
    method LeastRecentlyUsed() returns (k: Key)
      requires Valid() && entries != map[]
      ensures recency != [] && k == recency[|recency| - 1]
    {
      var rest := entries.Keys;
      k :| k in rest;
      rest := rest - {k};
      while rest != {}
        invariant rest < entries.Keys && k in entries && k !in rest
        invariant forall j <- entries :: j !in rest ==> entries[k].lastUsed <= entries[j].lastUsed
        decreases |rest|
      {
        var j :| j in rest;
        if entries[j].lastUsed < entries[k].lastUsed { k := j; }
        rest := rest - {j};
      }
      EarliestIsLast(recency, entries, clock, k);
    }

    /** `_evict_to_capacity`. */
    method EvictToCapacity()
      requires Valid()
      modifies this`entries, this`recency
      ensures Valid() && |recency| < Capacity()
      ensures recency == if |old(recency)| < Capacity() then old(recency) else old(recency)[..|old(recency)| - 1]
      ensures forall k <- entries :: k in old(entries) && entries[k] == old(entries[k])
    {
      RepresentsSize(recency, entries, clock);
      if |entries| < maxSize || |entries| == 0 { return; }
      var k := LeastRecentlyUsed();
      ghost var n := |recency| - 1;
      RepresentsWithoutLast(recency, entries, clock);
      CutRepresents(recency, entries, clock, n, entries - {k});
      entries := entries - {k};
      recency := recency[..n];
    }

    /** A successful `call_tool`: `_get_entry`, then `acquire`, then the round trip. */
    method Call(key: Key, now: int)
      requires Valid() && clock < now
      modifies this
      ensures Valid() && clock == now
      ensures recency == Touch(old(recency), key, Capacity())
      ensures key in entries && entries[key].lastUsed == now
      ensures forall k <- entries :: k != key ==> k in old(entries) && entries[k] == old(entries[k])
    {
      assert key in recency <==> key in Keys(recency);
      ghost var latest;
      if key !in entries {
        EvictToCapacity();
        assert key in recency <==> key in Keys(recency);
        PushRepresents(recency, entries, clock, key, now);
        latest := entries[key := Connection(true, now)];
        recency := [key] + recency;
        entries := entries[key := Connection(false, now)];
      } else {
        MoveToFront(recency, entries, clock, key, now);
        latest := entries[key := Connection(true, now)];
        recency := [key] + Without(recency, key);
      }
      if !entries[key].connected {
        entries := entries[key := entries[key].(connected := true)];
      }
      entries := entries[key := entries[key].(lastUsed := now)];
      assert entries == latest;
      clock := now;
    }

    /** The closing loop of `evict_idle`. */
    method DropAll(stale: set<Key>)
      modifies this`entries
      ensures entries == old(entries) - stale
    {
      var rest := stale;
      ghost var all := entries;
      while rest != {}
        invariant rest <= stale && entries.Keys == all.Keys - (stale - rest)
        invariant forall k <- entries :: entries[k] == all[k]
        decreases |rest|
      {
        var k :| k in rest;
        entries := entries - {k};
        rest := rest - {k};
      }
    }

    /** `evict_idle`: what it drops is a tail of the list, namely everything idle for too long. */
    method EvictIdle(now: int, maxIdle: int) returns (ghost kept: nat)
      requires Valid()
      modifies this`entries, this`recency
      ensures Valid() && kept <= |old(recency)| && recency == old(recency)[..kept]
      ensures forall i :: 0 <= i < |old(recency)| ==>
        old(recency)[i] in old(entries) && (i < kept <==> now - old(entries)[old(recency)[i]].lastUsed <= maxIdle)
      ensures forall k <- entries :: k in old(entries) && entries[k] == old(entries[k])
    {
      var stale := set k | k in entries && now - entries[k].lastUsed > maxIdle;
      kept := FirstIdle(recency, entries, clock, now, maxIdle);
      ghost var all := entries;
      DropAll(stale);
      KeptKeys(recency, all, clock, kept, now, maxIdle);
      CutRepresents(recency, all, clock, kept, entries);
      recency := recency[..kept];
    }
  }

  lemma KeptKeys(l: seq<Key>, m: map<Key, Connection>, clock: int, n: nat, now: int, maxIdle: int)
    requires Represents(l, m, clock) && n <= |l|
    requires forall i :: 0 <= i < |l| ==> l[i] in m && (i < n <==> now - m[l[i]].lastUsed <= maxIdle)
    ensures Keys(l[..n]) == m.Keys - (set k | k in m && now - m[k].lastUsed > maxIdle)
  {
    forall k | k in m && now - m[k].lastUsed <= maxIdle ensures k in l[..n] {
      assert k in Keys(l);
      var i :| 0 <= i < |l| && l[i] == k;
      assert l[..n][i] == k;
    }
  }

  /** In a list ordered by time stamp, the entries idle for too long form a tail. */
  lemma FirstIdle(l: seq<Key>, m: map<Key, Connection>, clock: int, now: int, maxIdle: int) returns (n: nat)
    requires Represents(l, m, clock)
    ensures n <= |l|
    ensures forall i :: 0 <= i < |l| ==> l[i] in m && (i < n <==> now - m[l[i]].lastUsed <= maxIdle)
  {
    assert forall i :: 0 <= i < |l| ==> l[i] in Keys(l);
    n := 0;
    while n < |l| && now - m[l[n]].lastUsed <= maxIdle
      invariant n <= |l|
      invariant forall i :: 0 <= i < n ==> now - m[l[i]].lastUsed <= maxIdle
    {
      n := n + 1;
    }
    forall i | n <= i < |l| ensures now - m[l[i]].lastUsed > maxIdle {
      if n < i { assert Later(m, l[n], l[i]); }
    }
  }
}
