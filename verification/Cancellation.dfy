/** Winding a delegated task down: `_confirm_cancellation` and the drain loops `_await_terminal`
    (rekuest_next/agents/caller.py) and `_await_kind` (rekuest_next/postmans/graphql.py), on an ideal clock:
    only sends and waits take time. */
module Cancellation {
  import opened RemoteCall

  /** An event and the time it is put into the task's queue. */
  datatype Arrival = Arrival(time: real, event: TaskEvent)

  datatype Control = Cancel | Interrupt

  ghost predicate InTime(arrivals: seq<Arrival>) {
    forall i, j :: 0 <= i < j < |arrivals| ==> arrivals[i].time <= arrivals[j].time
  }

  function Max(a: real, b: real): real {
    if a < b then b else a
  }

  predicate IsCancelled(e: TaskEvent) {
    e.Cancelled?
  }

  predicate IsCancelledOrInterrupted(e: TaskEvent) {
    e.Cancelled? || e.Interrupted?
  }

  /** A wanted event is there before the wait that starts at `start` runs out. */
  ghost predicate Confirmed(arrivals: seq<Arrival>, wanted: TaskEvent -> bool, start: real, timeout: real) {
    timeout > 0.0 && exists i :: 0 <= i < |arrivals| && wanted(arrivals[i].event) && arrivals[i].time < start + timeout
  }

  /** Event number `i` is the first wanted one of those that arrive at `from` or later. */
  ghost predicate FirstWanted(arrivals: seq<Arrival>, wanted: TaskEvent -> bool, from: real, i: int) {
    && 0 <= i < |arrivals| && wanted(arrivals[i].event) && arrivals[i].time >= from
    && forall j :: 0 <= j < i && arrivals[j].time >= from ==> !wanted(arrivals[j].event)
  }

  /** A wait from `start` for what arrives at `from` or later: it ends with the first wanted event in time, or when its
      time is up. */
  ghost predicate Waited(arrivals: seq<Arrival>, wanted: TaskEvent -> bool, from: real, start: real, timeout: real,
                         end: real)
  {
    || (exists i :: FirstWanted(arrivals, wanted, from, i) && arrivals[i].time < start + timeout && timeout > 0.0
                    && end == Max(start, arrivals[i].time))
    || ((forall i :: FirstWanted(arrivals, wanted, from, i) ==> timeout <= 0.0 || arrivals[i].time >= start + timeout)
        && end == Max(start, start + timeout))
  }

  /** Drains the queue until a wanted event arrives. However many others do, it ends by its deadline; it finds
      the first wanted one in time, and it has taken no event that comes after. */
  method AwaitWanted(arrivals: seq<Arrival>, wanted: TaskEvent -> bool, start: real, timeout: real)
    returns (found: bool, now: real, taken: nat)
    requires InTime(arrivals)
    ensures found <==> Confirmed(arrivals, wanted, start, timeout)
    ensures start <= now <= Max(start, start + timeout)
    ensures taken <= |arrivals|
    ensures found ==>
              && taken > 0 && wanted(arrivals[taken - 1].event) && arrivals[taken - 1].time < start + timeout
              && now == Max(start, arrivals[taken - 1].time)
    ensures forall i :: 0 <= i < taken ==> arrivals[i].time < start + timeout
    ensures forall i :: 0 <= i < taken && !(found && i == taken - 1) ==> !wanted(arrivals[i].event)
    ensures !found ==> now == Max(start, start + timeout)
    ensures !found && timeout > 0.0 && taken < |arrivals| ==> arrivals[taken].time >= now
  {
    var deadline := start + timeout;
    now, taken := start, 0;
    while true
      invariant start <= now <= Max(start, deadline)
      invariant taken <= |arrivals|
      invariant timeout > 0.0 ==> now < deadline
      invariant timeout <= 0.0 ==> now == start && taken == 0
      invariant forall i :: 0 <= i < taken ==> !wanted(arrivals[i].event) && arrivals[i].time < deadline
      invariant taken > 0 ==> now == Max(start, arrivals[taken - 1].time)
      invariant taken == 0 ==> now == start
      decreases |arrivals| - taken
    {
      if deadline - now <= 0.0 {
        return false, now, taken;
      }
      if taken == |arrivals| || arrivals[taken].time >= deadline {
        return false, deadline, taken;
      }
      now := Max(now, arrivals[taken].time);
      taken := taken + 1;
      if wanted(arrivals[taken - 1].event) {
        return true, now, taken;
      }
    }
  }

  /** Sends Cancel and waits; only if that is not confirmed in time and escalation is asked for, sends Interrupt
      and waits once more. `cancelTime` and `interruptTime` are how long the two sends take. */
  method ConfirmCancellation(arrivals: seq<Arrival>, escalate: bool, timeout: real, start: real,
                             cancelTime: real, interruptTime: real)
    returns (controls: seq<Control>, end: real)
    requires InTime(arrivals) && cancelTime >= 0.0 && interruptTime >= 0.0
    ensures var confirmed := Confirmed(arrivals, IsCancelled, start + cancelTime, timeout);
      controls == if !confirmed && escalate then [Cancel, Interrupt] else [Cancel]
    ensures |controls| == 1 ==> end <= start + cancelTime + Max(0.0, timeout)
    ensures |controls| == 1 && Confirmed(arrivals, IsCancelled, start + cancelTime, timeout) ==>
              exists i :: 0 <= i < |arrivals| && arrivals[i].event.Cancelled? && arrivals[i].time <= end
                          && end == Max(start + cancelTime, arrivals[i].time)
    ensures |controls| == 1 && !Confirmed(arrivals, IsCancelled, start + cancelTime, timeout) ==>
              end == start + cancelTime + Max(0.0, timeout)
    ensures |controls| == 2 ==>
              var over := start + cancelTime + Max(0.0, timeout);
              Waited(arrivals, IsCancelledOrInterrupted, over, over + interruptTime, timeout, end)
    ensures end <= start + cancelTime + interruptTime + 2.0 * Max(0.0, timeout)
  {
    controls := [Cancel];
    var found, now, taken := AwaitWanted(arrivals, IsCancelled, start + cancelTime, timeout);
    if found || !escalate {
      return controls, now;
    }
    controls := controls + [Interrupt];
    end := AwaitRest(arrivals, taken, now, now + interruptTime, timeout);
  }

  /** The wait after an Interrupt, for what the first one, over at `over`, left in the queue. */
  method AwaitRest(arrivals: seq<Arrival>, dropped: nat, over: real, start: real, timeout: real) returns (end: real)
    requires InTime(arrivals) && dropped <= |arrivals| && start >= over
    requires timeout > 0.0 ==> forall i :: 0 <= i < dropped ==> arrivals[i].time < over
    requires timeout > 0.0 && dropped < |arrivals| ==> arrivals[dropped].time >= over
    ensures Waited(arrivals, IsCancelledOrInterrupted, over, start, timeout, end)
    ensures start <= end <= start + Max(0.0, timeout)
  {
    var found, taken;
    found, end, taken := AwaitWanted(arrivals[dropped..], IsCancelledOrInterrupted, start, timeout);
    SecondWait(arrivals, dropped, over, start, timeout, end, found, taken);
  }

  /** The second wait is for what the first one left in the queue. */
  lemma SecondWait(arrivals: seq<Arrival>, dropped: nat, over: real, start: real, timeout: real, end: real, found: bool,
                   taken: nat)
    requires InTime(arrivals) && dropped <= |arrivals| && taken <= |arrivals| - dropped && start >= over
    requires timeout > 0.0 ==> forall i :: 0 <= i < dropped ==> arrivals[i].time < over
    requires timeout > 0.0 && dropped < |arrivals| ==> arrivals[dropped].time >= over
    requires var left := arrivals[dropped..];
      && (found <==> Confirmed(left, IsCancelledOrInterrupted, start, timeout))
      && (found ==> && taken > 0 && IsCancelledOrInterrupted(left[taken - 1].event)
                    && left[taken - 1].time < start + timeout && end == Max(start, left[taken - 1].time))
      && (found ==> forall i :: 0 <= i < taken - 1 ==> !IsCancelledOrInterrupted(left[i].event))
    requires !found ==> end == Max(start, start + timeout)
    ensures Waited(arrivals, IsCancelledOrInterrupted, over, start, timeout, end)
  {
    var left := arrivals[dropped..];
    assert forall i :: dropped <= i < |arrivals| ==> arrivals[i] == left[i - dropped];
    if found {
      assert FirstWanted(arrivals, IsCancelledOrInterrupted, over, dropped + taken - 1);
    }
  }

  /** After an Interrupt either confirmation will do: the first to arrive, in time and after the first wait, ends the
      second one, and nothing else ends it early. */
  lemma EscalatedEnds(arrivals: seq<Arrival>, over: real, start: real, timeout: real, end: real)
    requires InTime(arrivals) && Waited(arrivals, IsCancelledOrInterrupted, over, start, timeout, end)
    requires start >= over && timeout > 0.0
    ensures end < start + timeout <==>
              exists i :: Confirms(arrivals, i) && over <= arrivals[i].time < start + timeout
    ensures forall i :: Confirms(arrivals, i) && over <= arrivals[i].time < start + timeout ==>
              end <= Max(start, arrivals[i].time)
  {
    forall i | Confirms(arrivals, i) && over <= arrivals[i].time < start + timeout
      ensures end <= Max(start, arrivals[i].time) && end < start + timeout
    {
      FirstOfThem(arrivals, over, i);
    }
  }

  ghost predicate Confirms(arrivals: seq<Arrival>, i: int) {
    0 <= i < |arrivals| && (arrivals[i].event == Cancelled || arrivals[i].event == Interrupted)
  }

  lemma {:induction false} FirstOfThem(arrivals: seq<Arrival>, over: real, i: int)
    requires Confirms(arrivals, i) && over <= arrivals[i].time
    ensures exists j :: j <= i && FirstWanted(arrivals, IsCancelledOrInterrupted, over, j)
    decreases i
  {
    if j :| 0 <= j < i && arrivals[j].time >= over && IsCancelledOrInterrupted(arrivals[j].event) {
      FirstOfThem(arrivals, over, j);
    } else {
      assert FirstWanted(arrivals, IsCancelledOrInterrupted, over, i);
    }
  }

  /** The first wait is for a Cancelled and nothing else. */
  lemma ConfirmedIff(arrivals: seq<Arrival>, start: real, timeout: real)
    ensures Confirmed(arrivals, IsCancelled, start, timeout) <==>
              timeout > 0.0 && exists i :: 0 <= i < |arrivals| && arrivals[i].event == Cancelled
                                           && arrivals[i].time < start + timeout
  {
  }

  /** A GraphQL send is itself abandoned after `timeout`. */
  function BoundedSend(time: real, timeout: real): real {
    if time < timeout then time else Max(0.0, timeout)
  }

  /** A send takes the time it takes, but never more than the timeout. */
  lemma SendsAreBounded(time: real, timeout: real)
    requires time >= 0.0
    ensures 0.0 <= BoundedSend(time, timeout) <= time && BoundedSend(time, timeout) <= Max(0.0, timeout)
    ensures BoundedSend(time, timeout) == time || BoundedSend(time, timeout) == Max(0.0, timeout)
  {
  }

  /** Over GraphQL the whole exchange is bounded by four timeouts, however slow the server is. */
  method ConfirmOverGraphQL(arrivals: seq<Arrival>, escalate: bool, timeout: real, start: real,
                            cancelTime: real, interruptTime: real)
    returns (controls: seq<Control>, end: real)
    requires InTime(arrivals) && cancelTime >= 0.0 && interruptTime >= 0.0
    ensures controls == [Cancel] || controls == [Cancel, Interrupt]
    ensures |controls| == 2 <==>
              escalate && !Confirmed(arrivals, IsCancelled, start + BoundedSend(cancelTime, timeout), timeout)
    ensures end <= start + 2.0 * (|controls| as real) * Max(0.0, timeout) <= start + 4.0 * Max(0.0, timeout)
  {
    controls, end := ConfirmCancellation(arrivals, escalate, timeout, start,
      BoundedSend(cancelTime, timeout), BoundedSend(interruptTime, timeout));
  }
}
