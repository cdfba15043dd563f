/** `TaskLock` and `LockGroup` (rekuest_next/agents/lock.py), one group at a time.

    What the agent or the event loop decides is a parameter: whether an awaited lock is granted or the
    wait is cancelled, and how each `alock`/`aunlock` notification ends. */
module TaskLocks {
  import opened Prelude
  import opened KeyOrder

  /** How an awaited notification ends: an `Exception` and a `CancelledError` are told apart. */
  datatype Notice = Returns | Raises | IsCancelled

  /** What happens to one `TaskLock.acquire`. */
  datatype Attempt = CancelledWhileWaiting | Granted(notice: Notice)

  datatype Ending = Normal | Exception | Cancelled

  function EndingOf(n: Notice): Ending {
    match n case Returns => Normal case Raises => Exception case IsCancelled => Cancelled
  }

  class TaskLock {
    const key: string
    var locked: bool
    var lockingTask: Option<string>

    constructor (key: string)
      ensures this.key == key && !locked && lockingTask == None
    {
      this.key := key;
      locked := false;
      lockingTask := None;
    }

    ghost predicate HeldBy(task: string)
      reads this
    {
      locked && lockingTask == Some(task)
    }

    /** A failing notification never leaves the lock held. */
    method Acquire(task: string, attempt: Attempt) returns (e: Ending)
      requires attempt.Granted? ==> !locked
      modifies this
      ensures e == if attempt.Granted? then EndingOf(attempt.notice) else Cancelled
      ensures e.Normal? ==> HeldBy(task)
      ensures !e.Normal? ==> locked == old(locked)
      ensures attempt.CancelledWhileWaiting? ==> lockingTask == old(lockingTask)
      ensures attempt.Granted? && !e.Normal? ==> lockingTask == None
    {
      if attempt.CancelledWhileWaiting? {
        return Cancelled;
      }
      locked := true;
      lockingTask := Some(task);
      e := EndingOf(attempt.notice);
      if e != Normal {
        lockingTask := None;
        locked := false;
      }
    }

    /** The lock is freed however the notification ends. */
    method Release(notice: Notice) returns (e: Ending)
      requires locked
      modifies this
      ensures !locked && lockingTask == None
      ensures e == EndingOf(notice)
    {
      lockingTask := None;
      e := EndingOf(notice);
      locked := false;
    }
  }

  /** How many attempts succeed before the first that does not. */
  function FirstFailure(attempts: seq<Attempt>): (n: nat)
    ensures n <= |attempts|
    ensures forall i :: 0 <= i < n ==> attempts[i] == Granted(Returns)
    ensures n < |attempts| ==> attempts[n] != Granted(Returns)
  {
    if attempts == [] || attempts[0] != Granted(Returns) then 0 else 1 + FirstFailure(attempts[1..])
  }

  /** How many notifications end before the first that is cancelled. */
  function FirstCancel(notices: seq<Notice>): (n: nat)
    ensures n <= |notices|
    ensures forall i :: 0 <= i < n ==> notices[i] != IsCancelled
    ensures n < |notices| ==> notices[n] == IsCancelled
  {
    if notices == [] || notices[0] == IsCancelled then 0 else 1 + FirstCancel(notices[1..])
  }

  /** How many of `n` locks stay held when `notices` answers their releases, last acquired first. */
  function Leaked(n: nat, notices: seq<Notice>): (k: nat)
    requires |notices| == n
    ensures k <= n
  {
    if FirstCancel(notices) == n then 0 else n - 1 - FirstCancel(notices)
  }

  /** Nothing leaks exactly when no release but the very last one is cancelled. */
  lemma NothingLeaksIff(n: nat, notices: seq<Notice>)
    requires |notices| == n
    ensures Leaked(n, notices) == 0 <==> forall i :: 0 <= i < n - 1 ==> notices[i] != IsCancelled
  {
    var c := FirstCancel(notices);
    if c < n - 1 {
      assert notices[c] == IsCancelled;
    }
  }

  /** `asyncio.Lock` is granted only while free, and it is not reentrant. */
  ghost predicate Grantable(order: seq<TaskLock>, attempts: seq<Attempt>)
    requires |attempts| == |order|
    reads order
  {
    forall i :: 0 <= i < |order| && attempts[i].Granted? ==> !order[i].locked && order[i] !in order[..i]
  }

  ghost predicate AllHeldBy(held: seq<TaskLock>, task: string)
    reads held
  {
    forall i :: 0 <= i < |held| ==> held[i].HeldBy(task)
  }

  /** The loop of `LockGroup.acquire`: stops at the first attempt that fails. */
  method AcquireInOrder(order: seq<TaskLock>, task: string, attempts: seq<Attempt>)
    returns (e: Ending, n: nat)
    requires |attempts| == |order| && Grantable(order, attempts)
    modifies order
    ensures n == FirstFailure(attempts)
    ensures e.Normal? <==> n == |order|
    ensures n < |order| ==> (e.Cancelled? <==> attempts[n] in {CancelledWhileWaiting, Granted(IsCancelled)})
    ensures NoRepeats(order[..n]) && AllHeldBy(order[..n], task)
    ensures forall i :: 0 <= i < n ==> !old(order[i].locked)
    ensures forall i :: 0 <= i < |order| && order[i] !in order[..n] ==> order[i].locked == old(order[i].locked)
  {
    n := 0;
    while n < |order|
      invariant 0 <= n <= FirstFailure(attempts)
      invariant NoRepeats(order[..n])
      invariant forall i :: 0 <= i < n ==> order[i].HeldBy(task) && !old(order[i].locked)
      invariant forall i :: 0 <= i < |order| && order[i] !in order[..n] ==> order[i].locked == old(order[i].locked)
    {
      var lock := order[n];
      assert attempts[n].Granted? ==> !old(lock.locked) && lock !in order[..n];
      assert order[..n + 1] == order[..n] + [lock];
      e := lock.Acquire(task, attempts[n]);
      if e != Normal {
        return;
      }
      assert forall i :: 0 <= i < n ==> order[i] in order[..n] && order[i] != lock;
      n := n + 1;
    }
    return Normal, n;
  }

  /** The loop of `LockGroup.release`: only a cancelled notification stops the sweep. */
  method ReleaseInReverse(held: seq<TaskLock>, notices: seq<Notice>) returns (e: Ending, log: seq<string>)
    requires |notices| == |held| && NoRepeats(held)
    requires forall i :: 0 <= i < |held| ==> held[i].locked
    modifies held
    ensures |log| == |held| - Leaked(|held|, notices)
    ensures forall k :: 0 <= k < |log| ==> log[k] == held[|held| - 1 - k].key
    ensures forall i :: 0 <= i < |held| - |log| ==> held[i].locked
    ensures forall i :: |held| - |log| <= i < |held| ==> !held[i].locked && held[i].lockingTask == None
    ensures e == if IsCancelled in notices then Cancelled else Normal
    ensures e.Normal? <==> FirstCancel(notices) == |held|
  {
    log := [];
    var n := |held|;
    while |log| < n
      invariant |log| <= FirstCancel(notices)
      invariant forall k :: 0 <= k < |log| ==> log[k] == held[n - 1 - k].key
      invariant forall i :: 0 <= i < n - |log| ==> held[i].locked
      invariant forall i :: n - |log| <= i < n ==> !held[i].locked && held[i].lockingTask == None
    {
      var lock := held[n - 1 - |log|];
      e := lock.Release(notices[|log|]);
      log := log + [lock.key];
      if e == Cancelled {
        return;
      }
    }
    return Normal, log;
  }

  /** Whichever acquire or notification fails, nothing stays held unless the clean-up is itself cancelled
      before its last lock. */
  method AcquireOrRestore(order: seq<TaskLock>, task: string, attempts: seq<Attempt>, cleanup: seq<Notice>)
    returns (e: Ending, acquired: seq<TaskLock>)
    requires |attempts| == |order| && Grantable(order, attempts)
    requires |cleanup| == FirstFailure(attempts)
    modifies order
    ensures e.Normal? <==> FirstFailure(attempts) == |order|
    ensures !e.Normal? ==>
              (e.Cancelled? <==> attempts[|cleanup|] in {CancelledWhileWaiting, Granted(IsCancelled)}
                                 || IsCancelled in cleanup)
    ensures e.Normal? ==> acquired == order && NoRepeats(order) && AllHeldBy(order, task)
    ensures !e.Normal? ==> var n, kept := |cleanup|, Leaked(|cleanup|, cleanup);
              && (forall i :: 0 <= i < n ==> !old(order[i].locked) && (order[i].locked <==> i < kept))
              && (forall i :: 0 <= i < |order| && order[i] !in order[..n] ==> order[i].locked == old(order[i].locked))
              && acquired == if IsCancelled in cleanup then order[..n] else []
  {
    var n;
    e, n := AcquireInOrder(order, task, attempts);
    acquired := order[..n];
    if e == Normal {
      assert order[..n] == order;
      return;
    }
    assert forall i :: 0 <= i < n ==> acquired[i] == order[i];
    var e', log := ReleaseInReverse(acquired, cleanup);
    if e' == Normal {
      acquired := [];
    } else {
      e := e';
    }
  }

  class LockGroup {
    const locks: seq<TaskLock>
    const taskId: string
    var acquired: seq<TaskLock>

    constructor (locks: seq<TaskLock>, taskId: string)
      ensures this.locks == locks && this.taskId == taskId && acquired == []
    {
      this.locks := locks;
      this.taskId := taskId;
      acquired := [];
    }

    function Order(): (r: seq<TaskLock>) {
      SortOn(locks, (l: TaskLock) => l.key)
    }

    lemma OrderMembers(l: TaskLock)
      ensures l in Order() <==> l in locks
      ensures |Order()| == |locks|
    {
      SortOnMembers(locks, (l: TaskLock) => l.key, l);
    }

    /** `__aenter__` over `order`, the group's locks sorted by key. */
    method Enter(order: seq<TaskLock>, attempts: seq<Attempt>, cleanup: seq<Notice>) returns (e: Ending)
      requires order == Order()
      requires |attempts| == |order| && Grantable(order, attempts) && acquired == []
      requires |cleanup| == FirstFailure(attempts)
      modifies `acquired, order
      ensures e.Normal? <==> FirstFailure(attempts) == |order|
      ensures !e.Normal? ==>
                (e.Cancelled? <==> attempts[|cleanup|] in {CancelledWhileWaiting, Granted(IsCancelled)}
                                   || IsCancelled in cleanup)
      ensures e.Normal? ==> acquired == order && NoRepeats(order) && AllHeldBy(order, taskId)
      ensures !e.Normal? ==> var n, kept := |cleanup|, Leaked(|cleanup|, cleanup);
                && (forall i :: 0 <= i < n ==> !old(order[i].locked) && (order[i].locked <==> i < kept))
                && (forall i :: 0 <= i < |order| && order[i] !in order[..n] ==> order[i].locked == old(order[i].locked))
                && acquired == if IsCancelled in cleanup then order[..n] else []
    {
      e, acquired := AcquireOrRestore(order, taskId, attempts, cleanup);
    }

    /** `__aexit__`: releases in reverse, and completely unless a release is cancelled. */
    method Exit(notices: seq<Notice>) returns (e: Ending, log: seq<string>)
      requires |notices| == |acquired| && NoRepeats(acquired) && AllHeldBy(acquired, taskId)
      modifies `acquired, acquired
      ensures |log| == |notices| - Leaked(|notices|, notices)
      ensures forall k :: 0 <= k < |log| ==> log[k] == old(acquired)[|notices| - 1 - k].key
      ensures forall i :: 0 <= i < |notices| ==> (old(acquired)[i].locked <==> i < |notices| - |log|)
      ensures e == if IsCancelled in notices then Cancelled else Normal
      ensures acquired == if e.Normal? then [] else old(acquired)
    {
      e, log := ReleaseInReverse(acquired, notices);
      if e == Normal {
        acquired := [];
      }
    }
  }

  /** A lock listed twice can never be taken: the second attempt waits for the task itself. */
  lemma RepeatedLockNeverGranted(order: seq<TaskLock>, attempts: seq<Attempt>, i: nat, j: nat)
    requires |attempts| == |order| && Grantable(order, attempts)
    requires i < j < |order| && order[i] == order[j]
    ensures FirstFailure(attempts) <= j
  {
    assert order[j] in order[..j] by {
      assert order[..j][i] == order[j];
    }
  }
}
