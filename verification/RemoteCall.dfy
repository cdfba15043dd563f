/** What a delegated call means: `_adapt` (rekuest_next/agents/caller.py) and the nested generators
    `aassign`, `_astream_raw`, `aiterate_raw` and `acall_raw` (rekuest_next/remote.py). */
module RemoteCall {
  import opened Prelude

  type Payload = string

  /** The task events a caller can be sent. `Other` is every kind that is consumed for bookkeeping only. */
  datatype TaskEvent =
    | Yielded(payload: Payload) | Completed | Failed(error: string) | Critical(error: string)
    | Cancelled | Interrupted | Other

  datatype Kind = YIELD | COMPLETED | FAILED | CRITICAL

  datatype CallerTaskEvent = CallerTaskEvent(kind: Kind, payload: Payload, message: string)

  const KILLED := "The delegated task was cancelled or interrupted before completion."

  predicate Terminal(e: TaskEvent) {
    e.Completed? || e.Failed? || e.Critical? || e.Cancelled? || e.Interrupted?
  }

  function Adapt(e: TaskEvent): Option<CallerTaskEvent> {
    match e
    case Yielded(payload) => Some(CallerTaskEvent(YIELD, payload, ""))
    case Completed => Some(CallerTaskEvent(COMPLETED, "", ""))
    case Failed(error) => Some(CallerTaskEvent(FAILED, "", error))
    case Critical(error) => Some(CallerTaskEvent(CRITICAL, "", error))
    case Cancelled => Some(CallerTaskEvent(CRITICAL, "", KILLED))
    case Interrupted => Some(CallerTaskEvent(CRITICAL, "", KILLED))
    case Other => None
  }

  /** How a call ends. `Returned(None)` is the empty tuple; `Pending` still awaits its next event. */
  datatype Outcome =
    | Returned(value: Option<Payload>) | RaisedError(error: string) | RaisedCritical(error: string) | Pending

  /** The index of the first event that `stops`, or the length if there is none. */
  function First(feed: seq<TaskEvent>, stops: TaskEvent -> bool): (n: nat)
    ensures n <= |feed|
    ensures forall i :: 0 <= i < n ==> !stops(feed[i])
    ensures n < |feed| ==> stops(feed[n])
  {
    if feed == [] || stops(feed[0]) then 0 else 1 + First(feed[1..], stops)
  }

  /** The payload of the last yield. */
  function LastYield(feed: seq<TaskEvent>): Option<Payload> {
    if feed == [] then None
    else if feed[|feed| - 1].Yielded? then Some(feed[|feed| - 1].payload)
    else LastYield(feed[..|feed| - 1])
  }

  lemma {:induction false} LastYieldIs(feed: seq<TaskEvent>, p: Payload)
    ensures LastYield(feed) == Some(p) <==> exists i ::
              && 0 <= i < |feed| && feed[i] == Yielded(p)
              && forall j :: i < j < |feed| ==> !feed[j].Yielded?
    ensures LastYield(feed) == None <==> forall i :: 0 <= i < |feed| ==> !feed[i].Yielded?
  {
    if feed != [] && !feed[|feed| - 1].Yielded? {
      LastYieldIs(feed[..|feed| - 1], p);
      assert forall i :: 0 <= i < |feed| - 1 ==> feed[..|feed| - 1][i] == feed[i];
    }
  }

  /** What the call returns or raises at a stopping event that follows `before`. */
  function AtStop(before: seq<TaskEvent>, e: TaskEvent): Outcome {
    match e
    case Completed => Returned(LastYield(before))
    case Failed(error) => RaisedError(error)
    case Critical(error) => RaisedCritical(error)
    case _ => RaisedCritical(KILLED)
  }

  /** The meaning of a call over the whole list of events for its task. */
  function Meaning(feed: seq<TaskEvent>): Outcome {
    var n := First(feed, Terminal);
    if n == |feed| then Pending else AtStop(feed[..n], feed[n])
  }

  /** `acall_raw` over the agent postman: three generators, pulled one event at a time. `read` counts the
      events taken from the task's queue. */
  method AcallRaw(feed: seq<TaskEvent>) returns (o: Outcome, read: nat)
    ensures o == Meaning(feed)
    ensures read == if o.Pending? then |feed| else First(feed, Terminal) + 1
  {
    var result: Option<Payload> := None;
    read := 0;
    while read < |feed|
      invariant 0 <= read <= First(feed, Terminal)
      invariant result == LastYield(feed[..read])
    {
      var event := feed[read];
      read := read + 1;
      assert feed[..read] == feed[..read - 1] + [event];
      var adapted := Adapt(event);
      if adapted.Some? {
        match adapted.value.kind {
          case YIELD => result := Some(adapted.value.payload);
          case COMPLETED => return Returned(result), read;
          case FAILED => return RaisedError(adapted.value.message), read;
          case CRITICAL => return RaisedCritical(adapted.value.message), read;
        }
      }
    }
    return Pending, read;
  }

  lemma MeaningAt(feed: seq<TaskEvent>, n: nat)
    requires n < |feed| && Terminal(feed[n]) && forall i :: 0 <= i < n ==> !Terminal(feed[i])
    ensures Meaning(feed) == AtStop(feed[..n], feed[n])
  {
    var m := First(feed, Terminal);
    assert m == n;
  }

  /** `p` is the payload of the last yield before the event number `n`. */
  ghost predicate YieldedLast(feed: seq<TaskEvent>, n: nat, p: Payload)
    requires n <= |feed|
  {
    exists i :: 0 <= i < n && feed[i] == Yielded(p) && forall j :: i < j < n ==> !feed[j].Yielded?
  }

  /** What the caller gets from a call that was ended by the event number `n` of its feed. */
  ghost predicate EndedBy(feed: seq<TaskEvent>, n: nat, o: Outcome)
    requires n < |feed|
  {
    match feed[n]
    case Completed =>
      && (forall p :: YieldedLast(feed, n, p) ==> o == Returned(Some(p)))
      && ((forall i :: 0 <= i < n ==> !feed[i].Yielded?) ==> o == Returned(None))
    case Failed(e) => o == RaisedError(e)
    case Critical(e) => o == RaisedCritical(e)
    case Cancelled => o == RaisedCritical(KILLED)
    case Interrupted => o == RaisedCritical(KILLED)
    case _ => false
  }

  lemma LastYieldBefore(feed: seq<TaskEvent>, n: nat)
    requires n <= |feed|
    ensures forall p :: YieldedLast(feed, n, p) ==> LastYield(feed[..n]) == Some(p)
    ensures (forall i :: 0 <= i < n ==> !feed[i].Yielded?) ==> LastYield(feed[..n]) == None
  {
    forall p | YieldedLast(feed, n, p) ensures LastYield(feed[..n]) == Some(p) {
      LastYieldIs(feed[..n], p);
    }
    LastYieldIs(feed[..n], "");
  }

  /** A call gives its caller the payload of the last yield before Completed, or nothing if there was none, raises the
      error of Failed and of Critical, and raises critically on Cancelled and Interrupted. */
  lemma CallGives(feed: seq<TaskEvent>, n: nat)
    requires n < |feed| && Terminal(feed[n]) && forall i :: 0 <= i < n ==> !Terminal(feed[i])
    ensures EndedBy(feed, n, Meaning(feed))
  {
    MeaningAt(feed, n);
    LastYieldBefore(feed, n);
  }

  /** Without any terminal event it waits. */
  lemma CallWaitsIff(feed: seq<TaskEvent>)
    ensures Meaning(feed).Pending? <==> forall e :: e in feed ==>
              e.Yielded? || e.Other?
    ensures FeedMeaning(feed).Pending? <==> forall e :: e in feed ==>
              e.Yielded? || e.Other? || e.Cancelled? || e.Interrupted?
  {
    var n, m := First(feed, Terminal), First(feed, StreamStops);
    assert forall i :: 0 <= i < |feed| ==> feed[i] in feed;
  }

  /** The same over the change feed, with the kinds that end it there. */
  lemma FeedCallGives(feed: seq<TaskEvent>, n: nat)
    requires n < |feed| && (feed[n].Completed? || feed[n].Failed? || feed[n].Critical?)
    requires forall i :: 0 <= i < n ==> !feed[i].Completed? && !feed[i].Failed? && !feed[i].Critical?
    ensures EndedBy(feed, n, FeedMeaning(feed))
  {
    var m := First(feed, StreamStops);
    assert m == n;
    LastYieldBefore(feed, n);
  }

  /** Whatever arrives after the first terminal changes nothing. */
  lemma NothingReadPastTerminal(feed: seq<TaskEvent>, later: seq<TaskEvent>)
    requires !Meaning(feed).Pending?
    ensures Meaning(feed + later) == Meaning(feed)
  {
    var n, all := First(feed, Terminal), feed + later;
    assert all[..n] == feed[..n];
    MeaningAt(feed, n);
    MeaningAt(all, n);
  }

  // ---------------------------------------------------------------- over the GraphQL change feed

  /** The kinds `_astream_raw` stops at. The GraphQL postman never ends its stream itself. */
  predicate StreamStops(e: TaskEvent) {
    e.Completed? || e.Failed? || e.Critical?
  }

  function FeedMeaning(feed: seq<TaskEvent>): Outcome {
    var n := First(feed, StreamStops);
    if n == |feed| then Pending else AtStop(feed[..n], feed[n])
  }

  /** Once the stream has stopped, later events change nothing. */
  lemma FeedPrefixDecides(got: seq<TaskEvent>, feed: seq<TaskEvent>)
    requires got <= feed && !FeedMeaning(got).Pending?
    ensures FeedMeaning(feed) == FeedMeaning(got)
  {
    var n, m := First(got, StreamStops), First(feed, StreamStops);
    assert feed[..n] == got[..n] && feed[n] == got[n];
    assert m == n;
  }

  /** `acall_raw` over the GraphQL postman, which passes every event on unadapted. */
  method AcallRawOverFeed(feed: seq<TaskEvent>) returns (o: Outcome, read: nat)
    ensures o == FeedMeaning(feed)
    ensures read == if o.Pending? then |feed| else First(feed, StreamStops) + 1
  {
    var result: Option<Payload> := None;
    read := 0;
    while read < |feed|
      invariant 0 <= read <= First(feed, StreamStops)
      invariant result == LastYield(feed[..read])
    {
      var event := feed[read];
      read := read + 1;
      assert feed[..read] == feed[..read - 1] + [event];
      if event.Yielded? {
        result := Some(event.payload);
      }
      if event.Completed? {
        return Returned(result), read;
      }
      if event.Failed? {
        return RaisedError(event.error), read;
      }
      if event.Critical? {
        return RaisedCritical(event.error), read;
      }
    }
    return Pending, read;
  }

  /** The two postmen give a call the same meaning unless its first terminal is Cancelled or Interrupted. */
  lemma PostmenAgree(feed: seq<TaskEvent>)
    ensures var n := First(feed, Terminal);
      n == |feed| || StreamStops(feed[n]) ==> FeedMeaning(feed) == Meaning(feed)
  {
    var n := First(feed, Terminal);
    if n == |feed| || StreamStops(feed[n]) {
      var m := First(feed, StreamStops);
      assert m < n ==> Terminal(feed[m]);
      assert m == n;
    }
  }

  /** A call over the GraphQL postman is left waiting by a task that has ended exactly when the task's only
      terminals are Cancelled or Interrupted. */
  lemma FeedCallHangsIff(feed: seq<TaskEvent>)
    ensures (FeedMeaning(feed).Pending? && !Meaning(feed).Pending?) <==>
            (&& (exists e :: e in feed && Terminal(e))
             && forall e :: e in feed && Terminal(e) ==> e.Cancelled? || e.Interrupted?)
  {
    var n, m := First(feed, Terminal), First(feed, StreamStops);
    if n < |feed| {
      assert feed[n] in feed && Terminal(feed[n]);
    }
    if m < |feed| {
      assert feed[m] in feed && Terminal(feed[m]) && StreamStops(feed[m]);
    }
    assert Meaning(feed).Pending? <==> n == |feed|;
    assert FeedMeaning(feed).Pending? <==> m == |feed|;
  }
}
