/** Mixed histories of calls and idle sweeps: which connections the pool holds, from the history alone. */
module LruHistory {
  import opened Common
  import opened PoolModel
  import opened Lru

  datatype Op = Call(key: Key, at: int) | Sweep(at: int, maxIdle: int)

  /** Every key ever called, by last call, most recent first. */
  function Stack(ops: seq<Op>): seq<Key> {
    if ops == [] then []
    else
      var before := Stack(ops[..|ops| - 1]);
      match ops[|ops| - 1]
      case Call(key, _) => [key] + Without(before, key)
      case Sweep(_, _) => before
  }

  /** When a key was last called. */
  function LastCall(ops: seq<Op>, k: Key): int {
    if ops == [] then 0
    else if ops[|ops| - 1].Call? && ops[|ops| - 1].key == k then ops[|ops| - 1].at
    else LastCall(ops[..|ops| - 1], k)
  }

  /** Some sweep since its last call found the key idle for too long. */
  predicate FoundIdle(ops: seq<Op>, k: Key) {
    ops != [] &&
    var before := ops[..|ops| - 1];
    match ops[|ops| - 1]
    case Call(key, _) => key != k && FoundIdle(before, k)
    case Sweep(at, maxIdle) => FoundIdle(before, k) || at - LastCall(before, k) > maxIdle
  }

  /** The list is the top of the stack: exactly the keys among the `cap` most recently called that no sweep has found
      idle since. */
  ghost predicate Describes(ops: seq<Op>, cap: nat, held: seq<Key>) {
    && held <= Stack(ops) && |held| <= cap
    && forall j :: 0 <= j < |Stack(ops)| ==> (j < |held| <==> j < cap && !FoundIdle(ops, Stack(ops)[j]))
  }

  lemma {:induction false} StackIsDistinct(ops: seq<Op>)
    ensures Distinct(Stack(ops))
  {
    if ops != [] {
      var before, op := Stack(ops[..|ops| - 1]), ops[|ops| - 1];
      StackIsDistinct(ops[..|ops| - 1]);
      if op.Call? {
        WithoutIsRemoval(before, op.key);
        var rest := Without(before, op.key);
        assert forall j :: 0 <= j < |rest| ==> rest[j] in rest;
      }
    }
  }

  /** What a call makes of the stack. */
  lemma StackAfterCall(ops: seq<Op>, op: Op)
    requires op.Call?
    ensures Stack(ops + [op]) == [op.key] + Without(Stack(ops), op.key)
  {
    assert (ops + [op])[..|ops|] == ops;
  }

  lemma IdleAfterCall(ops: seq<Op>, op: Op, k: Key)
    requires op.Call?
    ensures FoundIdle(ops + [op], k) <==> k != op.key && FoundIdle(ops, k)
  {
    assert (ops + [op])[..|ops|] == ops;
  }

  /** Removing a key from the upper part of a stack leaves the lower part alone. */
  lemma UpperRemoval(stack: seq<Key>, held: seq<Key>, key: Key)
    requires Distinct(stack) && held <= stack && key in held
    ensures Without(stack, key) == Without(held, key) + stack[|held|..] && |Without(held, key)| == |held| - 1
  {
    var below := stack[|held|..];
    assert stack == held + below;
    var i :| 0 <= i < |held| && held[i] == key;
    assert stack[i] == key && forall j :: 0 <= j < |below| ==> below[j] == stack[|held| + j];
    WithoutConcat(held, below, key);
    WithoutAbsent(below, key);
    assert Distinct(held);
    WithoutIsRemoval(held, key);
  }

  lemma LowerRemoval(stack: seq<Key>, held: seq<Key>, key: Key)
    requires held <= stack && key !in held
    ensures Without(stack, key) == held + Without(stack[|held|..], key)
  {
    assert stack == held + stack[|held|..];
    WithoutConcat(held, stack[|held|..], key);
    WithoutAbsent(held, key);
  }

  /** The called key was held: those below the list stay where they are. */
  lemma HeldCallDescribes(ops: seq<Op>, cap: nat, held: seq<Key>, op: Op)
    requires op.Call? && cap >= 1 && Describes(ops, cap, held) && op.key in held
    ensures Describes(ops + [op], cap, Touch(held, op.key, cap))
  {
    var stack, all, rest := Stack(ops), Stack(ops + [op]), Without(held, op.key);
    StackIsDistinct(ops);
    StackAfterCall(ops, op);
    UpperRemoval(stack, held, op.key);
    assert all == [op.key] + rest + stack[|held|..];
    forall j | 0 <= j < |all| ensures j < |held| <==> j < cap && !FoundIdle(ops + [op], all[j]) {
      IdleAfterCall(ops, op, all[j]);
      if 0 < j < |held| {
        WithoutIsRemoval(held, op.key);
        assert all[j] == rest[j - 1] && rest[j - 1] in rest;
        HeldIsNotIdle(ops, cap, held, all[j]);
      } else if j >= |held| {
        assert all[j] == stack[j];
        BelowIsOther(stack, held, op.key, j);
      }
    }
  }

  lemma BelowIsOther(stack: seq<Key>, held: seq<Key>, key: Key, j: nat)
    requires Distinct(stack) && held <= stack && key in held && |held| <= j < |stack|
    ensures stack[j] != key
  {
    var i :| 0 <= i < |held| && held[i] == key;
    assert stack[i] == key;
  }

  lemma HeldIsNotIdle(ops: seq<Op>, cap: nat, held: seq<Key>, k: Key)
    requires Describes(ops, cap, held) && k in held
    ensures !FoundIdle(ops, k)
  {
    var i :| 0 <= i < |held| && held[i] == k;
    assert Stack(ops)[i] == k;
  }

  lemma NewTouch(held: seq<Key>, key: Key, cap: nat, lower: seq<Key>)
    requires key !in held && |held| <= cap && cap >= 1
    ensures var now := Touch(held, key, cap); now <= [key] + held + lower && |now| == if |held| < cap then |held| + 1 else cap
  {}

  /** The called key was not held: it enters at the top, and the last one may go. */
  lemma NewCallDescribes(ops: seq<Op>, cap: nat, held: seq<Key>, op: Op)
    requires op.Call? && cap >= 1 && Describes(ops, cap, held) && op.key !in held
    ensures Describes(ops + [op], cap, Touch(held, op.key, cap))
  {
    var lower := Without(Stack(ops)[|held|..], op.key);
    NewStack(ops, held, op);
    NewTouch(held, op.key, cap, lower);
    forall j | 0 <= j < 1 + |held| + |lower|
      ensures j < |Touch(held, op.key, cap)| <==> j < cap && !FoundIdle(ops + [op], ([op.key] + held + lower)[j])
    {
      NewCallAt(ops, cap, held, op.key, j);
      IdleAfterCall(ops, op, ([op.key] + held + lower)[j]);
    }
  }

  lemma NewStack(ops: seq<Op>, held: seq<Key>, op: Op)
    requires op.Call? && held <= Stack(ops) && op.key !in held
    ensures Stack(ops + [op]) == [op.key] + held + Without(Stack(ops)[|held|..], op.key)
  {
    StackAfterCall(ops, op);
    LowerRemoval(Stack(ops), held, op.key);
  }

  lemma NewCallAt(ops: seq<Op>, cap: nat, held: seq<Key>, key: Key, j: nat)
    requires cap >= 1 && Describes(ops, cap, held) && key !in held && j < 1 + |held| + |Without(Stack(ops)[|held|..], key)|
    ensures var x := ([key] + held + Without(Stack(ops)[|held|..], key))[j];
      j < (if |held| < cap then |held| + 1 else cap) <==> j < cap && !(x != key && FoundIdle(ops, x))
  {
    if 0 < j <= |held| {
      assert held[j - 1] in held;
      HeldIsNotIdle(ops, cap, held, held[j - 1]);
    } else if j > |held| {
      LowerStays(ops, cap, held, key, j);
    }
  }

  /** A key below the list was idle or too deep, and is now no higher. */
  lemma LowerStays(ops: seq<Op>, cap: nat, held: seq<Key>, key: Key, j: nat)
    requires Describes(ops, cap, held) && key !in held
    requires |held| < j < 1 + |held| + |Without(Stack(ops)[|held|..], key)|
    ensures var x := Without(Stack(ops)[|held|..], key)[j - 1 - |held|]; x != key && (j >= cap || FoundIdle(ops, x))
  {
    var below, m := Stack(ops)[|held|..], j - 1 - |held|;
    StackIsDistinct(ops);
    assert Distinct(below);
    WithoutIsRemoval(below, key);
    var n := WithoutShifts(below, key, m);
    assert Stack(ops)[|held| + n] == Without(below, key)[m];
    assert Without(below, key)[m] in Without(below, key);
  }

  /** A sweep cuts the list where the idle ones begin. */
  lemma SweepDescribes(ops: seq<Op>, cap: nat, held: seq<Key>, op: Op, kept: nat)
    requires op.Sweep? && Describes(ops, cap, held) && kept <= |held|
    requires forall j :: 0 <= j < |held| ==> (j < kept <==> op.at - LastCall(ops, held[j]) <= op.maxIdle)
    ensures Describes(ops + [op], cap, held[..kept])
  {
    var all := ops + [op];
    assert all[..|ops|] == ops;
    forall j | 0 <= j < |Stack(all)| ensures j < kept <==> j < cap && !FoundIdle(all, Stack(all)[j]) {
      if j < |held| { assert Stack(ops)[j] == held[j]; }
    }
  }

  lemma CallDescribes(ops: seq<Op>, cap: nat, held: seq<Key>, op: Op)
    requires op.Call? && cap >= 1 && Describes(ops, cap, held)
    ensures Describes(ops + [op], cap, Touch(held, op.key, cap))
  {
    if op.key in held { HeldCallDescribes(ops, cap, held, op); } else { NewCallDescribes(ops, cap, held, op); }
  }

  /** Every entry is stamped with the last call of its key. */
  ghost predicate Stamped(ops: seq<Op>, entries: map<Key, Connection>) {
    forall k <- entries :: entries[k].lastUsed == LastCall(ops, k)
  }

  /** The calls come in the order of their clock readings. */
  ghost predicate InOrder(ops: seq<Op>, clock: int) {
    && (forall i :: 0 <= i < |ops| && ops[i].Call? ==> clock < ops[i].at)
    && (forall i, j :: 0 <= i < j < |ops| && ops[i].Call? && ops[j].Call? ==> ops[i].at < ops[j].at)
  }

  /** Any history of calls and sweeps, run through the pool: it ends up holding exactly the keys that the history
      describes, in order of last call. */
  method Replay(pool: Pool, ops: seq<Op>)
    requires pool.Valid() && pool.recency == [] && InOrder(ops, pool.clock)
    modifies pool
    ensures pool.Valid() && Describes(ops, pool.Capacity(), pool.recency)
  {
    ghost var clock := pool.clock;
    for i := 0 to |ops|
      invariant pool.Valid() && Describes(ops[..i], pool.Capacity(), pool.recency)
      invariant pool.clock == clock || exists j :: 0 <= j < i && ops[j].Call? && ops[j].at == pool.clock
      invariant Stamped(ops[..i], pool.entries)
    {
      assert ops[..i + 1] == ops[..i] + [ops[i]] && ops[..i + 1][..i] == ops[..i];
      ghost var held := pool.recency;
      match ops[i]
      case Call(key, at) =>
        pool.Call(key, at);
        CallDescribes(ops[..i], pool.Capacity(), held, ops[i]);
      case Sweep(at, maxIdle) =>
        ghost var kept := pool.EvictIdle(at, maxIdle);
        SweepDescribes(ops[..i], pool.Capacity(), held, ops[i], kept);
    }
    assert ops[..|ops|] == ops;
  }
}
