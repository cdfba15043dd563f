/** Which lock keys an assignment claims while it runs, and which it holds
    (rekuest_next/state/lock.py, `AppRegistry.get_locks`, `BaseAgent.collect_from_extensions`
    and `get_locks_for_keys`). */
module ClaimedLocks {
  import opened Prelude
  import opened KeyOrder
  import opened TaskLocks

  function Names(keys: seq<string>): set<string> {
    set k | k in keys
  }

  // ---------------------------------------------------------------- the claim, a context variable

  /** `current_locks`. */
  class ClaimVariable {
    var current: set<string>

    constructor ()
      ensures current == {}
    {
      current := {};
    }
  }

  class LockContextManager {
    const locks: set<string>
    var resetToken: Option<set<string>>

    constructor (lockNames: seq<string>)
      ensures locks == Names(lockNames) && resetToken == None
    {
      locks := Names(lockNames);
      resetToken := None;
    }

    method Enter(claims: ClaimVariable)
      modifies this, claims
      ensures claims.current == locks && resetToken == Some(old(claims.current))
    {
      resetToken := Some(claims.current);
      claims.current := locks;
    }

    method Exit(claims: ClaimVariable)
      modifies claims
      ensures claims.current == if resetToken.Some? then resetToken.value else old(claims.current)
    {
      if resetToken.Some? {
        claims.current := resetToken.value;
      }
    }
  }

  /** A `with acquired_locks(*keys):` block and the blocks nested in it, in order. */
  datatype Block = Block(keys: seq<string>, inner: seq<Block>)

  /** What is claimed at the start of a block and again after each inner block. */
  function Claims(b: Block): seq<set<string>>
    decreases b, 1
  {
    [Names(b.keys)] + InnerClaims(Names(b.keys), b.inner)
  }

  function InnerClaims(own: set<string>, blocks: seq<Block>): seq<set<string>>
    decreases blocks, 0
  {
    if blocks == [] then [] else Claims(blocks[0]) + [own] + InnerClaims(own, blocks[1..])
  }

  /** Inside a block exactly its own keys are claimed, and leaving it restores the previous claim, however
      deeply blocks are nested. */
  method RunBlock(claims: ClaimVariable, b: Block) returns (seen: seq<set<string>>)
    modifies claims
    ensures seen == Claims(b)
    ensures claims.current == old(claims.current)
    decreases b, 1
  {
    var manager := new LockContextManager(b.keys);
    manager.Enter(claims);
    var inner := RunInner(claims, b.inner);
    seen := [manager.locks] + inner;
    manager.Exit(claims);
  }

  method RunInner(claims: ClaimVariable, blocks: seq<Block>) returns (seen: seq<set<string>>)
    modifies claims
    ensures seen == InnerClaims(old(claims.current), blocks)
    ensures claims.current == old(claims.current)
    decreases blocks, 0
  {
    if blocks == [] {
      return [];
    }
    var first := RunBlock(claims, blocks[0]);
    var rest := RunInner(claims, blocks[1..]);
    seen := first + [claims.current] + rest;
  }

  /** How many blocks come before the inner block number `i`, each counted at its start and after each block in it. */
  function Offset(b: Block, i: nat): nat
    requires i <= |b.inner|
    decreases b, 0, i
  {
    if i == 0 then 1 else Offset(b, i - 1) + Count(b.inner[i - 1]) + 1
  }

  function Count(b: Block): nat
    decreases b, 1
  {
    Offset(b, |b.inner|)
  }

  lemma {:induction false} InnerSplit(own: set<string>, before: seq<Block>, after: seq<Block>)
    ensures InnerClaims(own, before + after) == InnerClaims(own, before) + InnerClaims(own, after)
    decreases before
  {
    if before == [] {
      assert before + after == after;
    } else {
      assert (before + after)[1..] == before[1..] + after;
      InnerSplit(own, before[1..], after);
    }
  }

  lemma {:induction false} InnerCounted(b: Block, i: nat)
    requires i <= |b.inner|
    ensures 1 + |InnerClaims(Names(b.keys), b.inner[..i])| == Offset(b, i)
    decreases b, 0, i
  {
    if i > 0 {
      InnerCounted(b, i - 1);
      assert b.inner[..i] == b.inner[..i - 1] + [b.inner[i - 1]];
      InnerSplit(Names(b.keys), b.inner[..i - 1], [b.inner[i - 1]]);
      OneInner(Names(b.keys), b.inner[i - 1]);
      ClaimsCounted(b.inner[i - 1]);
    }
  }

  lemma OneInner(own: set<string>, b: Block)
    ensures InnerClaims(own, [b]) == Claims(b) + [own]
  {
    assert [b][1..] == [] && InnerClaims(own, []) == [];
    assert Claims(b) + [own] + [] == Claims(b) + [own];
  }

  lemma {:induction false} ClaimsCounted(b: Block)
    ensures |Claims(b)| == Count(b)
    decreases b, 1
  {
    InnerCounted(b, |b.inner|);
    assert b.inner[..|b.inner|] == b.inner;
  }

  lemma InnerAt(own: set<string>, blocks: seq<Block>, i: nat)
    requires i < |blocks|
    ensures InnerClaims(own, blocks)
      == InnerClaims(own, blocks[..i]) + (Claims(blocks[i]) + ([own] + InnerClaims(own, blocks[i + 1..])))
  {
    assert blocks == blocks[..i] + blocks[i..];
    InnerSplit(own, blocks[..i], blocks[i..]);
    assert blocks[i..][1..] == blocks[i + 1..];
    Regroup(Claims(blocks[i]), [own], InnerClaims(own, blocks[i + 1..]));
  }

  lemma Regroup<T>(a: seq<T>, b: seq<T>, c: seq<T>)
    ensures a + b + c == a + (b + c)
  {
  }

  lemma SeqMiddle<T>(first: seq<T>, mid: seq<T>, last: seq<T>, s: seq<T>)
    requires s == first + (mid + last) && first != [] && last != []
    ensures s[0] == first[0]
    ensures var at := |first|; at + |mid| < |s| && s[at..at + |mid|] == mid && s[at + |mid|] == last[0]
  {
  }

  lemma ClaimsParted(b: Block, first: seq<set<string>>, mid: seq<set<string>>, last: seq<set<string>>, i: nat)
    requires i < |b.inner| && mid == Claims(b.inner[i])
    requires first == [Names(b.keys)] + InnerClaims(Names(b.keys), b.inner[..i])
    requires last == [Names(b.keys)] + InnerClaims(Names(b.keys), b.inner[i + 1..])
    ensures Claims(b) == first + (mid + last)
  {
    InnerAt(Names(b.keys), b.inner, i);
    Regroup([Names(b.keys)], InnerClaims(Names(b.keys), b.inner[..i]), mid + last);
  }

  lemma BeforeCounted(b: Block, first: seq<set<string>>, i: nat)
    requires i < |b.inner| && first == [Names(b.keys)] + InnerClaims(Names(b.keys), b.inner[..i])
    ensures |first| == Offset(b, i)
  {
    InnerCounted(b, i);
  }

  lemma PartCounted(b: Block, first: seq<set<string>>, mid: seq<set<string>>, last: seq<set<string>>, i: nat)
    requires i < |b.inner| && Claims(b) == first + (mid + last) && mid == Claims(b.inner[i])
    requires |first| == Offset(b, i) && first != [] && last != [] && first[0] == last[0] == Names(b.keys)
    ensures |Claims(b)| == Count(b) && Offset(b, i) + Count(b.inner[i]) < |Claims(b)|
    ensures Claims(b)[0] == Names(b.keys) == Claims(b)[Offset(b, i) + Count(b.inner[i])]
    ensures Claims(b)[Offset(b, i)..Offset(b, i) + Count(b.inner[i])] == Claims(b.inner[i])
  {
    ClaimsCounted(b.inner[i]);
    ClaimsCounted(b);
    SeqMiddle(first, mid, last, Claims(b));
  }

  /** What is claimed while a block runs begins with its own keys; each inner block comes in its turn with what it
      claims; and right after it the block's own keys are claimed again. */
  lemma ClaimsAre(b: Block, i: nat)
    requires i < |b.inner|
    ensures |Claims(b)| == Count(b) && Offset(b, i) + Count(b.inner[i]) < |Claims(b)|
    ensures Claims(b)[0] == Names(b.keys) == Claims(b)[Offset(b, i) + Count(b.inner[i])]
    ensures Claims(b)[Offset(b, i)..Offset(b, i) + Count(b.inner[i])] == Claims(b.inner[i])
  {
    var own, mid := Names(b.keys), Claims(b.inner[i]);
    var first, last := [own] + InnerClaims(own, b.inner[..i]), [own] + InnerClaims(own, b.inner[i + 1..]);
    ClaimsParted(b, first, mid, last, i);
    BeforeCounted(b, first, i);
    PartCounted(b, first, mid, last, i);
  }

  /** A block without inner blocks claims its keys once. */
  lemma PlainBlock(b: Block)
    requires b.inner == []
    ensures Claims(b) == [Names(b.keys)]
  {
  }

  // ---------------------------------------------------------------- the lock table

  /** What one registered interface declares: `schema.locks`, and the lock keys its actors are built with. */
  datatype Implementation = Implementation(locks: Option<seq<string>>, actorLocks: Option<seq<string>>)

  function KeysOf(locks: Option<seq<string>>): set<string> {
    if locks.Some? then Names(locks.value) else {}
  }

  /** What is declared is every key listed; an implementation without a list declares none. */
  lemma DeclaredIff(locks: Option<seq<string>>, key: string)
    ensures key in KeysOf(locks) <==> locks.Some? && exists i :: 0 <= i < |locks.value| && locks.value[i] == key
  {
  }

  class AppRegistry {
    var implementations: map<string, Implementation>

    constructor ()
      ensures implementations == map[]
    {
      implementations := map[];
    }

    /** Actors get the lock keys their implementation declares. */
    ghost predicate Paired()
      reads this
    {
      forall i :: i in implementations ==> KeysOf(implementations[i].actorLocks) == KeysOf(implementations[i].locks)
    }

    method RegisterAtInterface(interface: string, implementation: Implementation)
      modifies this
      ensures implementations == old(implementations)[interface := implementation]
      ensures old(Paired()) && KeysOf(implementation.actorLocks) == KeysOf(implementation.locks) ==> Paired()
    {
      implementations := implementations[interface := implementation];
    }

    ghost predicate Declared(key: string)
      reads this
    {
      exists i :: i in implementations && key in KeysOf(implementations[i].locks)
    }

    /** One lock for every key some implementation declares, and no key twice. */
    method GetLocks() returns (keys: seq<string>)
      ensures NoRepeats(keys)
      ensures forall k :: k in keys <==> Declared(k)
    {
      keys := [];
      var todo := implementations.Keys;
      while todo != {}
        invariant todo <= implementations.Keys
        invariant NoRepeats(keys)
        invariant forall k :: k in keys <==>
                    exists i :: i in implementations && i !in todo && k in KeysOf(implementations[i].locks)
      {
        var i :| i in todo;
        var schema := implementations[i];
        ghost var before := keys;
        if schema.locks.Some? {
          keys := AddMissing(keys, schema.locks.value);
        }
        assert forall k :: k in keys <==> k in before || k in KeysOf(schema.locks);
        todo := todo - {i};
      }
    }

    method AddMissing(known: seq<string>, locks: seq<string>) returns (keys: seq<string>)
      requires NoRepeats(known)
      ensures NoRepeats(keys)
      ensures forall k :: k in keys <==> k in known || k in locks
    {
      keys := known;
      for n := 0 to |locks|
        invariant NoRepeats(keys)
        invariant forall k :: k in keys <==> k in known || k in locks[..n]
      {
        assert locks[..n + 1] == locks[..n] + [locks[n]];
        if locks[n] !in keys {
          keys := keys + [locks[n]];
        }
      }
      assert locks[..|locks|] == locks;
    }
  }

  class LockTable {
    var locks: map<string, TaskLock>

    ghost predicate WellKeyed()
      reads this
    {
      forall k :: k in locks ==> locks[k].key == k
    }

    constructor ()
      ensures locks == map[] && WellKeyed()
    {
      locks := map[];
    }

    /** Adds a lock for every key that has none; existing locks keep their identity. */
    method Collect(keys: seq<string>)
      requires WellKeyed()
      modifies this
      ensures WellKeyed()
      ensures locks.Keys == old(locks.Keys) + Names(keys)
      ensures forall k :: k in old(locks) ==> locks[k] == old(locks[k])
    {
      for n := 0 to |keys|
        invariant WellKeyed()
        invariant locks.Keys == old(locks.Keys) + Names(keys[..n])
        invariant forall k :: k in old(locks) ==> k in locks && locks[k] == old(locks[k])
      {
        assert keys[..n + 1] == keys[..n] + [keys[n]];
        if keys[n] !in locks {
          var lock := new TaskLock(keys[n]);
          locks := locks[keys[n] := lock];
        }
      }
      assert keys[..|keys|] == keys;
    }

    /** `get_locks_for_keys`: unknown keys are dropped, repeated ones are not. */
    function LocksForKeys(keys: seq<string>): seq<TaskLock>
      reads this
    {
      if keys == [] then []
      else (if keys[0] in locks then [locks[keys[0]]] else []) + LocksForKeys(keys[1..])
    }

    lemma {:induction false} LocksForKeysHas(keys: seq<string>, l: TaskLock)
      ensures l in LocksForKeys(keys) <==> exists k :: k in keys && k in locks && locks[k] == l
    {
      if keys != [] {
        LocksForKeysHas(keys[1..], l);
        assert forall k :: k in keys <==> k == keys[0] || k in keys[1..];
      }
    }

    /** Known keys keep their number and order: `keys` may repeat. */
    lemma {:induction false} KnownKeysKept(keys: seq<string>)
      requires forall k :: k in keys ==> k in locks
      ensures |LocksForKeys(keys)| == |keys|
      ensures forall i :: 0 <= i < |keys| ==> LocksForKeys(keys)[i] == locks[keys[i]]
    {
      if keys != [] {
        KnownKeysKept(keys[1..]);
      }
    }

    ghost function HeldKeys(keys: seq<string>): set<string>
      reads this
    {
      set i | 0 <= i < |LocksForKeys(keys)| :: LocksForKeys(keys)[i].key
    }

    lemma HeldKeysAre(keys: seq<string>)
      requires WellKeyed()
      ensures HeldKeys(keys) == set k | k in keys && k in locks
    {
      var held := LocksForKeys(keys);
      forall k ensures k in HeldKeys(keys) <==> k in keys && k in locks {
        if k in HeldKeys(keys) {
          var i :| 0 <= i < |held| && held[i].key == k;
          LocksForKeysHas(keys, held[i]);
        }
        if k in keys && k in locks {
          LocksForKeysHas(keys, locks[k]);
          var i :| 0 <= i < |held| && held[i] == locks[k];
        }
      }
    }

    /** While an assignment runs, what it claims is what its lock group holds, if and only if the table
        covers the actor's keys. */
    lemma ClaimedIsHeldIffCovered(keys: seq<string>)
      requires WellKeyed()
      ensures Names(keys) == HeldKeys(keys) <==> forall k :: k in keys ==> k in locks
    {
      HeldKeysAre(keys);
      if forall k :: k in keys ==> k in locks {
      } else {
        var k :| k in keys && k !in locks;
        assert k in Names(keys);
      }
    }
  }

  /** Collecting covers every actor registered so far, so each of them claims exactly what it holds. */
  method CollectFromExtensions(registry: AppRegistry, table: LockTable)
    requires registry.Paired() && table.WellKeyed()
    modifies table
    ensures table.WellKeyed()
    ensures forall k :: k in table.locks <==> k in old(table.locks) || registry.Declared(k)
    ensures forall i, keys :: i in registry.implementations && registry.implementations[i].actorLocks == Some(keys) ==>
              Names(keys) == table.HeldKeys(keys)
  {
    var declared := registry.GetLocks();
    table.Collect(declared);
    assert forall k :: k in table.locks <==> k in old(table.locks) || k in declared;
    forall i, keys | i in registry.implementations && registry.implementations[i].actorLocks == Some(keys)
      ensures Names(keys) == table.HeldKeys(keys)
    {
      forall k | k in keys ensures k in table.locks {
        assert k in KeysOf(registry.implementations[i].actorLocks);
        assert registry.Declared(k);
      }
      table.ClaimedIsHeldIffCovered(keys);
    }
  }

  ghost function KeysHeld(held: seq<TaskLock>): set<string> {
    set i | 0 <= i < |held| :: held[i].key
  }

  lemma SameMembersSameKeys(a: seq<TaskLock>, b: seq<TaskLock>)
    requires forall l :: l in a <==> l in b
    ensures KeysHeld(a) == KeysHeld(b)
  {
    forall k ensures k in KeysHeld(a) <==> k in KeysHeld(b) {
      if k in KeysHeld(a) {
        var i :| 0 <= i < |a| && a[i].key == k;
        assert a[i] in b;
      }
      if k in KeysHeld(b) {
        var i :| 0 <= i < |b| && b[i].key == k;
        assert b[i] in a;
      }
    }
  }

  /** A group over the looked-up locks that has acquired all of them holds exactly the declared keys that the table
      knows: all that are claimed, if and only if it knows them all. */
  lemma GroupKeys(table: LockTable, keys: seq<string>, order: seq<TaskLock>)
    requires table.WellKeyed() && order == SortOn(table.LocksForKeys(keys), (l: TaskLock) => l.key)
    ensures KeysHeld(order) == table.HeldKeys(keys)
    ensures Names(keys) == KeysHeld(order) <==> forall k :: k in keys ==> k in table.locks
  {
    forall l ensures l in order <==> l in table.LocksForKeys(keys) {
      SortOnMembers(table.LocksForKeys(keys), (l: TaskLock) => l.key, l);
    }
    SameMembersSameKeys(order, table.LocksForKeys(keys));
    table.ClaimedIsHeldIffCovered(keys);
  }

  /** The lock group of the actor's keys, entered. */
  method EnterGroup(table: LockTable, keys: seq<string>, task: string, order: seq<TaskLock>, attempts: seq<Attempt>,
                    cleanup: seq<Notice>)
    returns (group: LockGroup, e: Ending)
    requires order == SortOn(table.LocksForKeys(keys), (l: TaskLock) => l.key)
    requires |attempts| == |order| && Grantable(order, attempts) && |cleanup| == FirstFailure(attempts)
    modifies order
    ensures fresh(group)
    ensures e.Normal? <==> FirstFailure(attempts) == |order|
    ensures e.Normal? ==> group.acquired == order && AllHeldBy(group.acquired, task)
  {
    group := new LockGroup(table.LocksForKeys(keys), task);
    e := group.Enter(order, attempts, cleanup);
  }

  /** `sync_context` up to its body: the lock group of the actor's keys, then the claim. While the body runs, what is
      claimed is the keys of the locks the group holds, if and only if the table knows all the actor's keys. */
  method EnterSyncContext(table: LockTable, keys: seq<string>, task: string, claims: ClaimVariable,
                          order: seq<TaskLock>, attempts: seq<Attempt>, cleanup: seq<Notice>)
    returns (group: LockGroup, manager: LockContextManager, e: Ending)
    requires table.WellKeyed()
    requires order == SortOn(table.LocksForKeys(keys), (l: TaskLock) => l.key)
    requires |attempts| == |order| && Grantable(order, attempts) && |cleanup| == FirstFailure(attempts)
    modifies claims, order
    ensures fresh(group) && fresh(manager)
    ensures e.Normal? <==> FirstFailure(attempts) == |order|
    ensures e.Normal? ==>
              && group.acquired == order && AllHeldBy(group.acquired, task)
              && claims.current == Names(keys) && manager.resetToken == Some(old(claims.current))
              && (claims.current == KeysHeld(group.acquired) <==> forall k :: k in keys ==> k in table.locks)
    ensures !e.Normal? ==> claims.current == old(claims.current)
  {
    GroupKeys(table, keys, order);
    group, e := EnterGroup(table, keys, task, order, attempts, cleanup);
    manager := new LockContextManager(keys);
    if e == Normal {
      manager.Enter(claims);
    }
  }

  /** An actor registered only after the table was collected claims a key that nobody holds. */
  method RegisteredTooLate() returns (registry: AppRegistry, table: LockTable)
    ensures fresh(registry) && fresh(table) && registry.Paired() && table.WellKeyed()
    ensures "snap" in registry.implementations
    ensures registry.implementations["snap"].actorLocks == Some(["camera"])
    ensures Names(["camera"]) != table.HeldKeys(["camera"])
  {
    registry := new AppRegistry();
    table := new LockTable();
    CollectFromExtensions(registry, table);
    registry.RegisterAtInterface("snap", Implementation(Some(["camera"]), Some(["camera"])));
    assert "camera" in ["camera"] && "camera" !in table.locks;
    table.ClaimedIsHeldIffCovered(["camera"]);
  }
}
