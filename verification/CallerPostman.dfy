/** `AgentPostman` (rekuest_next/agents/caller.py): routing of task events to delegated calls.

    Events may arrive before the response that says whose they are; they are kept as orphans and drained
    into the task's queue once the response is there. */
module CallerPostman {
  import opened Prelude
  import opened RemoteCall

  datatype Event = Event(task: string, seqNo: int, body: TaskEvent)

  /** An `AssignResponse`; an empty string stands for an absent field. */
  datatype Response = Response(request: string, task: string, error: string)

  /** The postman's dictionaries. A pending response is `None` while its future is unresolved. */
  datatype Post = Post(
    pending: map<string, Option<Response>>,
    queues: map<string, seq<Event>>,
    orphans: map<string, seq<Event>>,
    lastSeq: map<string, int>,
    refToTask: map<string, string>)

  const FRESH := Post(map[], map[], map[], map[], map[])

  /** `setdefault` the task's queue and drain its orphans into it. */
  function Drained(p: Post, task: string): Post {
    p.(queues := p.queues[task := GetOr(p.queues, task, []) + GetOr(p.orphans, task, [])],
       orphans := Without(p.orphans, task))
  }

  function Answered(p: Post, m: Response): Post {
    var q := if m.task != "" && m.error == "" then Drained(p, m.task) else p;
    if m.request in q.pending && q.pending[m.request].None? then
      q.(pending := q.pending[m.request := Some(m)])
    else
      q
  }

  function Mirrored(p: Post, e: Event): Post {
    var q := p.(lastSeq := p.lastSeq[e.task := e.seqNo]);
    if e.task in p.queues then
      q.(queues := p.queues[e.task := p.queues[e.task] + [e]])
    else
      q.(orphans := p.orphans[e.task := GetOr(p.orphans, e.task, []) + [e]])
  }

  function Registered(p: Post, reference: string, task: string): Post {
    Drained(p, task).(refToTask := p.refToTask[reference := task])
  }

  /** The `finally` of `aassign`. */
  function Closed(p: Post, request: string, reference: string, task: Option<string>): Post {
    var q := p.(pending := Without(p.pending, request), refToTask := Without(p.refToTask, reference));
    if task.None? then q else
      q.(queues := Without(p.queues, task.value), orphans := Without(p.orphans, task.value),
         lastSeq := Without(p.lastSeq, task.value))
  }

  class AgentPostman {
    var pendingResponses: map<string, Option<Response>>
    var taskQueues: map<string, seq<Event>>
    var orphanByTask: map<string, seq<Event>>
    var lastSeq: map<string, int>
    var referenceToTask: map<string, string>

    ghost function View(): Post
      reads this
    {
      Post(pendingResponses, taskQueues, orphanByTask, lastSeq, referenceToTask)
    }

    constructor ()
      ensures View() == FRESH
    {
      pendingResponses, taskQueues, orphanByTask, lastSeq, referenceToTask := map[], map[], map[], map[], map[];
    }

    method DrainOrphans(task: string)
      modifies this
      ensures View() == Drained(old(View()), task)
    {
      if task !in taskQueues {
        taskQueues := taskQueues[task := []];
      }
      var orphans := GetOr(orphanByTask, task, []);
      orphanByTask := Without(orphanByTask, task);
      ghost var queues := taskQueues;
      assert queues[task] + orphans[..0] == queues[task];
      for i := 0 to |orphans|
        invariant taskQueues == queues[task := queues[task] + orphans[..i]]
        invariant View() == old(View()).(queues := taskQueues, orphans := Without(old(orphanByTask), task))
      {
        assert queues[task] + orphans[..i + 1] == taskQueues[task] + [orphans[i]];
        taskQueues := taskQueues[task := taskQueues[task] + [orphans[i]]];
      }
      assert orphans[..|orphans|] == orphans;
    }

    method HandleAssignResponse(m: Response)
      modifies this
      ensures View() == Answered(old(View()), m)
    {
      if m.task != "" && m.error == "" {
        DrainOrphans(m.task);
      }
      if m.request in pendingResponses && pendingResponses[m.request].None? {
        pendingResponses := pendingResponses[m.request := Some(m)];
      }
    }

    method HandleExecutionEvent(e: Event) returns (outOfOrder: bool)
      modifies this
      ensures View() == Mirrored(old(View()), e)
      ensures outOfOrder <==> e.task in old(lastSeq) && e.seqNo <= old(lastSeq)[e.task]
    {
      outOfOrder := e.task in lastSeq && e.seqNo <= lastSeq[e.task];
      lastSeq := lastSeq[e.task := e.seqNo];
      if e.task in taskQueues {
        taskQueues := taskQueues[e.task := taskQueues[e.task] + [e]];
      } else {
        orphanByTask := orphanByTask[e.task := GetOr(orphanByTask, e.task, []) + [e]];
      }
    }

    method RegisterTask(reference: string, task: string)
      modifies this
      ensures View() == Registered(old(View()), reference, task)
    {
      referenceToTask := referenceToTask[reference := task];
      DrainOrphans(task);
    }

    /** One `queue.get()`. */
    method NextEvent(task: string) returns (e: Event)
      requires task in taskQueues && taskQueues[task] != []
      modifies this
      ensures e == old(taskQueues)[task][0]
      ensures View() == old(View()).(queues := old(taskQueues)[task := old(taskQueues)[task][1..]])
    {
      e := taskQueues[task][0];
      taskQueues := taskQueues[task := taskQueues[task][1..]];
    }

    method Close(request: string, reference: string, task: Option<string>)
      modifies this
      ensures View() == Closed(old(View()), request, reference, task)
    {
      pendingResponses := Without(pendingResponses, request);
      if task.Some? {
        taskQueues := Without(taskQueues, task.value);
        orphanByTask := Without(orphanByTask, task.value);
        lastSeq := Without(lastSeq, task.value);
      }
      referenceToTask := Without(referenceToTask, reference);
    }
  }

  // ---------------------------------------------------------------- any interleaving

  /** One `aassign`: awaiting its response, streaming with what it has taken so far, or over. A streaming call that
      has taken its terminal is `done` until the generator is closed, which may be later. `start` says which events
      of its task an ended call began with. */
  datatype Call =
    | Asking(reference: string)
    | Streaming(reference: string, task: string, got: seq<Event>, done: bool)
    | Ended(reference: string, aborted: bool, got: seq<Event>, start: nat)

  /** For the specification only: `received` is the history of all events per task, `base` how many of them came
      before the last call on the task was closed, and `streaming` the request that streams a task. */
  datatype Sys = Sys(post: Post, calls: map<string, Call>, received: map<string, seq<Event>>, base: map<string, nat>,
                     streaming: map<string, string>)

  const START := Sys(FRESH, map[], map[], map[], map[])

  datatype Op =
    | Begin(request: string, reference: string) | Answer(m: Response) | Mirror(e: Event)
    | Resume(request: string) | Pull(request: string) | Close(request: string) | Abort(request: string)

  /** The durable task id the backend gives each request it accepts. A later request may get the id of an earlier
      one, as a retry with the same reference does. */
  type Backend = map<string, string>

  predicate Live(s: Sys, r: string) {
    r in s.calls && !s.calls[r].Ended?
  }

  /** One live call per task id: a request begins only when no live one has its id. */
  ghost predicate IdIsFree(b: Backend, s: Sys, r: string) {
    r in b ==> b[r] != "" && forall q :: q in b && Live(s, q) ==> b[q] != b[r]
  }

  ghost predicate Enabled(b: Backend, s: Sys, op: Op) {
    match op
    case Begin(r, _) => r !in s.calls && IdIsFree(b, s, r)
    case Answer(m) =>
      m.request in s.calls && (m.task != "" && m.error == "" ==> m.request in b && b[m.request] == m.task)
    case Mirror(_) => true
    case Resume(r) => r in s.calls && s.calls[r].Asking? && r in s.post.pending && s.post.pending[r].Some?
    case Pull(r) => Live(s, r) && s.calls[r].Streaming? && !s.calls[r].done && Queue(s, s.calls[r].task) != []
    case Close(r) => Live(s, r) && s.calls[r].Streaming? && s.calls[r].done
    case Abort(r) => Live(s, r) && !(s.calls[r].Streaming? && s.calls[r].done)
  }

  function Queue(s: Sys, t: string): seq<Event> { GetOr(s.post.queues, t, []) }

  function Orphans(s: Sys, t: string): seq<Event> { GetOr(s.post.orphans, t, []) }

  function Received(s: Sys, t: string): seq<Event> { GetOr(s.received, t, []) }

  function Base(s: Sys, t: string): nat { GetOr(s.base, t, 0) }

  /** The events received for a task since the last call on it was closed. */
  function Since(s: Sys, t: string): seq<Event> {
    if Base(s, t) <= |Received(s, t)| then Received(s, t)[Base(s, t)..] else []
  }

  /** A call that never streamed ends. */
  function Refused(s: Sys, r: string): Sys
    requires r in s.calls
  {
    var ref := s.calls[r].reference;
    s.(post := Closed(s.post, r, ref, None), calls := s.calls[r := Ended(ref, true, [], 0)])
  }

  /** A streaming call ends. */
  function Over(s: Sys, r: string): Sys
    requires r in s.calls && s.calls[r].Streaming?
  {
    var Streaming(ref, task, got, done) := s.calls[r];
    s.(post := Closed(s.post, r, ref, Some(task)), calls := s.calls[r := Ended(ref, !done, got, Base(s, task))],
       base := s.base[task := |Received(s, task)|], streaming := Without(s.streaming, task))
  }

  ghost function Step(b: Backend, s: Sys, op: Op): Sys
    requires Enabled(b, s, op)
  {
    match op
    case Begin(r, ref) => s.(post := s.post.(pending := s.post.pending[r := None]), calls := s.calls[r := Asking(ref)])
    case Answer(m) => s.(post := Answered(s.post, m))
    case Mirror(e) => s.(post := Mirrored(s.post, e), received := s.received[e.task := Received(s, e.task) + [e]])
    case Resume(r) =>
      var m, ref := s.post.pending[r].value, s.calls[r].reference;
      if m.error != "" || m.task == "" then Refused(s, r)
      else
        s.(post := Registered(s.post, ref, m.task), calls := s.calls[r := Streaming(ref, m.task, [], false)],
           streaming := s.streaming[m.task := r])
    case Pull(r) =>
      var Streaming(ref, task, got, _) := s.calls[r];
      var e := Queue(s, task)[0];
      s.(post := s.post.(queues := s.post.queues[task := Queue(s, task)[1..]]),
         calls := s.calls[r := Streaming(ref, task, got + [e], Terminal(e.body))])
    case Close(r) => Over(s, r)
    case Abort(r) => if s.calls[r].Streaming? then Over(s, r) else Refused(s, r)
  }

  predicate NoTerminal(es: seq<Event>) {
    forall i :: 0 <= i < |es| ==> !Terminal(es[i].body)
  }

  /** What a call has taken so far. */
  function Consumed(s: Sys, r: string): seq<Event> {
    if r in s.calls && !s.calls[r].Asking? then s.calls[r].got else []
  }

  // ---------------------------------------------------------------- the lane of one task

  /** What there is of one task: what its streaming call has taken, its queue, its orphans, and what was received. */
  datatype Lane = Lane(taken: seq<Event>, queue: seq<Event>, orphans: seq<Event>, queued: bool, orphaned: bool,
                       since: seq<Event>)

  function Taken(s: Sys, t: string): seq<Event> {
    if t in s.streaming then Consumed(s, s.streaming[t]) else []
  }

  function LaneAt(s: Sys, t: string): Lane {
    Lane(Taken(s, t), Queue(s, t), Orphans(s, t), t in s.post.queues, t in s.post.orphans, Since(s, t))
  }

  /** Nothing is lost, repeated or reordered, and a queue and orphans never coexist. */
  predicate LaneOk(l: Lane) {
    && l.taken + l.queue + l.orphans == l.since
    && !(l.queued && l.orphaned)
    && (!l.queued ==> l.queue == []) && (!l.orphaned ==> l.orphans == [])
  }

  datatype Move = Stays | Drains | Arrives(e: Event) | Takes | Clears

  function Next(l: Lane, m: Move): Lane {
    match m
    case Stays => l
    case Drains => l.(queue := l.queue + l.orphans, orphans := [], queued := true, orphaned := false)
    case Arrives(e) =>
      if l.queued then l.(queue := l.queue + [e], since := l.since + [e])
      else l.(orphans := l.orphans + [e], orphaned := true, since := l.since + [e])
    case Takes => if l.queue == [] then l else l.(taken := l.taken + [l.queue[0]], queue := l.queue[1..])
    case Clears => Lane([], [], [], false, false, [])
  }

  lemma NextKeepsLane(l: Lane, m: Move)
    requires LaneOk(l) && (m.Takes? ==> l.queued)
    ensures LaneOk(Next(l, m))
  {
    match m
    case Drains => assert l.taken + (l.queue + l.orphans) + [] == l.taken + l.queue + l.orphans;
    case Arrives(e) =>
      assert l.taken + (l.queue + [e]) + [] == (l.taken + l.queue + []) + [e];
      assert l.taken + l.queue + (l.orphans + [e]) == (l.taken + l.queue + l.orphans) + [e];
    case Takes =>
      if l.queue != [] {
        assert l.taken + l.queue == (l.taken + [l.queue[0]]) + l.queue[1..];
      }
    case _ =>
  }

  function TaskAnswered(m: Response): string {
    if m.error == "" then m.task else ""
  }

  /** The task whose lane a step moves, and how. An empty id is no task. */
  ghost function TouchedTask(b: Backend, s: Sys, op: Op): string
    requires Enabled(b, s, op)
  {
    match op
    case Begin(_, _) => ""
    case Answer(m) => TaskAnswered(m)
    case Mirror(e) => e.task
    case Resume(r) => TaskAnswered(s.post.pending[r].value)
    case Pull(r) => s.calls[r].task
    case Close(r) => s.calls[r].task
    case Abort(r) => if s.calls[r].Streaming? then s.calls[r].task else ""
  }

  ghost function MoveOf(b: Backend, s: Sys, op: Op): Move
    requires Enabled(b, s, op)
  {
    match op
    case Begin(_, _) => Stays
    case Answer(m) => if TaskAnswered(m) == "" then Stays else Drains
    case Mirror(e) => Arrives(e)
    case Resume(r) => if TaskAnswered(s.post.pending[r].value) == "" then Stays else Drains
    case Pull(_) => Takes
    case Close(_) => Clears
    case Abort(r) => if s.calls[r].Streaming? then Clears else Stays
  }

  // ---------------------------------------------------------------- what every step keeps

  /** Streaming calls and the tasks they stream belong together, one to one. */
  ghost predicate StreamsOk(b: Backend, s: Sys) {
    && (forall t :: t in s.streaming ==> StreamAt(b, s, t))
    && (forall r :: r in s.calls && s.calls[r].Streaming? ==> StreamOf(b, s, r))
  }

  ghost predicate StreamAt(b: Backend, s: Sys, t: string)
    requires t in s.streaming
  {
    var r := s.streaming[t];
    r in s.calls && s.calls[r].Streaming? && s.calls[r].task == t && SlotAt(s.post, t).queued
  }

  ghost predicate StreamOf(b: Backend, s: Sys, r: string)
    requires r in s.calls && s.calls[r].Streaming?
  {
    r in b && s.calls[r].task == b[r] && b[r] in s.streaming && s.streaming[b[r]] == r
  }

  /** What a streaming or ended call has taken: no terminal but the one that finished it. */
  predicate GotOk(c: Call) {
    match c
    case Asking(_) => true
    case Streaming(_, _, got, done) => if done then EndsWithTerminal(got) else NoTerminal(got)
    case Ended(_, aborted, got, _) => if aborted then NoTerminal(got) else EndsWithTerminal(got)
  }

  predicate EndsWithTerminal(got: seq<Event>) {
    got != [] && Terminal(got[|got| - 1].body) && NoTerminal(got[..|got| - 1])
  }

  /** What an ended call has taken is a stretch of what was received for its task. */
  ghost predicate StretchOk(b: Backend, s: Sys, r: string)
    requires r in b && r in s.calls
  {
    s.calls[r].Ended? ==>
      var got, start, all := s.calls[r].got, s.calls[r].start, Received(s, b[r]);
      got == [] || (start + |got| <= |all| && all[start..start + |got|] == got)
  }

  /** A resolved future carries the response to its own request. */
  ghost predicate ResponsesNamed(b: Backend, pending: map<string, Option<Response>>) {
    forall r :: r in pending && pending[r].Some? ==>
      var m := pending[r].value;
      m.request == r && (m.task != "" && m.error == "" ==> r in b && b[r] == m.task)
  }

  ghost predicate LiveOnce(b: Backend, s: Sys) {
    && (forall r, q :: r in b && q in b && Live(s, r) && Live(s, q) && b[r] == b[q] ==> r == q)
    && (forall r :: r in b && r in s.calls ==> b[r] != "")
  }

  ghost predicate LanesOk(s: Sys) {
    forall t :: LaneOk(LaneAt(s, t)) && Base(s, t) <= |Received(s, t)|
  }

  ghost predicate CallsOk(b: Backend, s: Sys) {
    && (forall r :: r in s.calls ==> GotOk(s.calls[r]))
    && (forall r :: r in b && r in s.calls ==> StretchOk(b, s, r))
  }

  ghost predicate Inv(b: Backend, s: Sys) {
    && LanesOk(s) && StreamsOk(b, s) && LiveOnce(b, s) && CallsOk(b, s) && ResponsesNamed(b, s.post.pending)
  }

  // ---------------------------------------------------------------- what the dictionaries hold of one task

  datatype Slot = Slot(queue: seq<Event>, orphans: seq<Event>, queued: bool, orphaned: bool)

  function SlotAt(p: Post, t: string): Slot {
    Slot(GetOr(p.queues, t, []), GetOr(p.orphans, t, []), t in p.queues, t in p.orphans)
  }

  function DrainedSlot(x: Slot): Slot {
    Slot(x.queue + x.orphans, [], true, false)
  }

  lemma AnsweredSlot(p: Post, m: Response, u: string)
    ensures SlotAt(Answered(p, m), u) ==
      if TaskAnswered(m) != "" && u == m.task then DrainedSlot(SlotAt(p, u)) else SlotAt(p, u)
  {
  }

  lemma RegisteredSlot(p: Post, reference: string, task: string, u: string)
    ensures SlotAt(Registered(p, reference, task), u) ==
      if u == task then DrainedSlot(SlotAt(p, u)) else SlotAt(p, u)
  {
  }

  lemma ClosedSlot(p: Post, request: string, reference: string, task: Option<string>, u: string)
    ensures SlotAt(Closed(p, request, reference, task), u) ==
      if task == Some(u) then Slot([], [], false, false) else SlotAt(p, u)
  {
  }

  lemma MirroredSlot(p: Post, e: Event, u: string)
    ensures SlotAt(Mirrored(p, e), u) ==
      var x := SlotAt(p, u);
      if u != e.task then x
      else if x.queued then x.(queue := x.queue + [e])
      else x.(orphans := x.orphans + [e], orphaned := true)
  {
  }

  /** A request that asks streams nothing yet, and neither does any other for its task. */
  lemma AskingMeansFree(b: Backend, s: Sys, r: string)
    requires StreamsOk(b, s) && LiveOnce(b, s) && r in b && r in s.calls && s.calls[r].Asking?
    ensures b[r] !in s.streaming
  {
    if b[r] in s.streaming {
      assert Live(s, s.streaming[b[r]]) && Live(s, r);
      assert false;
    }
  }

  /** Only the calls of the request that a step names can change. */
  function RequestOf(op: Op): Option<string> {
    match op
    case Begin(r, _) => Some(r)
    case Answer(_) => None
    case Mirror(_) => None
    case Resume(r) => Some(r)
    case Pull(r) => Some(r)
    case Close(r) => Some(r)
    case Abort(r) => Some(r)
  }

  lemma CallElsewhere(b: Backend, s: Sys, op: Op, q: string)
    requires Enabled(b, s, op) && RequestOf(op) != Some(q)
    ensures var s' := Step(b, s, op);
      (q in s'.calls <==> q in s.calls) && (q in s.calls ==> s'.calls[q] == s.calls[q])
  {
    match op
    case Abort(r) =>
    case Resume(r) =>
    case _ =>
  }

  lemma TakenSame(b: Backend, s: Sys, s': Sys, u: string)
    requires StreamsOk(b, s)
    requires (u in s'.streaming <==> u in s.streaming)
    requires u in s.streaming ==>
               && s'.streaming[u] == s.streaming[u]
               && s.streaming[u] in s'.calls && s'.calls[s.streaming[u]] == s.calls[s.streaming[u]]
    ensures Taken(s', u) == Taken(s, u)
  {
  }

  lemma StreamElsewhere(b: Backend, s: Sys, op: Op, u: string)
    requires StreamsOk(b, s) && Enabled(b, s, op)
    requires u != TouchedTask(b, s, op) || op.Begin? || op.Answer? || op.Mirror? || MoveOf(b, s, op).Stays?
    ensures Taken(Step(b, s, op), u) == Taken(s, u)
  {
    var s' := Step(b, s, op);
    if u in s.streaming {
      var q := s.streaming[u];
      assert q in s.calls && s.calls[q].Streaming? && s.calls[q].task == u;
      CallElsewhere(b, s, op, q);
    }
    TakenSame(b, s, s', u);
  }

  lemma SlotStep(b: Backend, s: Sys, op: Op, u: string)
    requires Enabled(b, s, op)
    ensures var x, t, m := SlotAt(s.post, u), TouchedTask(b, s, op), MoveOf(b, s, op);
      SlotAt(Step(b, s, op).post, u) ==
        if u != t then x
        else match m
          case Stays => x
          case Drains => DrainedSlot(x)
          case Arrives(e) =>
            if x.queued then x.(queue := x.queue + [e]) else x.(orphans := x.orphans + [e], orphaned := true)
          case Takes => x.(queue := x.queue[1..])
          case Clears => Slot([], [], false, false)
  {
    match op
    case Begin(_, _) =>
    case Answer(m) => AnsweredSlot(s.post, m, u);
    case Mirror(e) => MirroredSlot(s.post, e, u);
    case Resume(r) =>
      RegisteredSlot(s.post, s.calls[r].reference, s.post.pending[r].value.task, u);
      ClosedSlot(s.post, r, s.calls[r].reference, None, u);
    case Pull(r) =>
    case Close(r) => ClosedSlot(s.post, r, s.calls[r].reference, Some(s.calls[r].task), u);
    case Abort(r) =>
      ClosedSlot(s.post, r, s.calls[r].reference, if s.calls[r].Streaming? then Some(s.calls[r].task) else None, u);
  }

  lemma SinceStep(b: Backend, s: Sys, op: Op, u: string)
    requires Enabled(b, s, op) && Base(s, u) <= |Received(s, u)|
    ensures var s', t, m := Step(b, s, op), TouchedTask(b, s, op), MoveOf(b, s, op);
      && Base(s', u) <= |Received(s', u)| && Received(s, u) <= Received(s', u)
      && Since(s', u) ==
           if u != t || m.Stays? || m.Drains? || m.Takes? then Since(s, u)
           else if m.Arrives? then Since(s, u) + [m.e] else []
  {
    var all, n := Received(s, u), Base(s, u);
    if op.Mirror? {
      assert (all + [op.e])[n..] == all[n..] + [op.e];
    }
    assert all[|all|..] == [];
  }

  lemma TakenStep(b: Backend, s: Sys, op: Op)
    requires StreamsOk(b, s) && LiveOnce(b, s) && ResponsesNamed(b, s.post.pending) && Enabled(b, s, op)
    ensures var s', t, m := Step(b, s, op), TouchedTask(b, s, op), MoveOf(b, s, op);
      Taken(s', t) ==
        if m.Takes? then Taken(s, t) + [Queue(s, t)[0]] else if m.Clears? then [] else Taken(s, t)
  {
    match op
    case Resume(r) =>
      if MoveOf(b, s, op).Drains? {
        AskingMeansFree(b, s, r);
      } else {
        StreamElsewhere(b, s, op, TouchedTask(b, s, op));
      }
    case Pull(r) => assert s.streaming[s.calls[r].task] == r;
    case Close(r) =>
    case Abort(r) =>
      if s.calls[r].Asking? {
        StreamElsewhere(b, s, op, TouchedTask(b, s, op));
      }
    case _ => StreamElsewhere(b, s, op, TouchedTask(b, s, op));
  }

  lemma LaneElsewhere(b: Backend, s: Sys, op: Op, u: string)
    requires StreamsOk(b, s) && Enabled(b, s, op) && u != TouchedTask(b, s, op) && Base(s, u) <= |Received(s, u)|
    ensures LaneAt(Step(b, s, op), u) == LaneAt(s, u)
    ensures Base(Step(b, s, op), u) <= |Received(Step(b, s, op), u)|
  {
    var s' := Step(b, s, op);
    SlotStep(b, s, op, u);
    SinceStep(b, s, op, u);
    StreamElsewhere(b, s, op, u);
    LaneMoves(s, s', u, Stays);
  }

  lemma OwnLane(b: Backend, s: Sys, op: Op)
    requires StreamsOk(b, s) && LiveOnce(b, s) && ResponsesNamed(b, s.post.pending) && Enabled(b, s, op)
    requires var t := TouchedTask(b, s, op); Base(s, t) <= |Received(s, t)|
    ensures var t, s' := TouchedTask(b, s, op), Step(b, s, op);
      && LaneAt(s', t) == Next(LaneAt(s, t), MoveOf(b, s, op))
      && Base(s', t) <= |Received(s', t)|
  {
    var t := TouchedTask(b, s, op);
    SlotStep(b, s, op, t);
    SinceStep(b, s, op, t);
    TakenStep(b, s, op);
    assert op.Pull? ==> Queue(s, t) != [];
    LaneMoves(s, Step(b, s, op), t, MoveOf(b, s, op));
  }

  lemma LaneMoves(s: Sys, s': Sys, u: string, m: Move)
    requires var x := SlotAt(s.post, u);
      SlotAt(s'.post, u) == match m
        case Stays => x
        case Drains => DrainedSlot(x)
        case Arrives(e) =>
          if x.queued then x.(queue := x.queue + [e]) else x.(orphans := x.orphans + [e], orphaned := true)
        case Takes => x.(queue := if x.queue == [] then [] else x.queue[1..])
        case Clears => Slot([], [], false, false)
    requires Taken(s', u) ==
      if m.Takes? && Queue(s, u) != [] then Taken(s, u) + [Queue(s, u)[0]] else if m.Clears? then [] else Taken(s, u)
    requires Since(s', u) == if m.Arrives? then Since(s, u) + [m.e] else if m.Clears? then [] else Since(s, u)
    ensures LaneAt(s', u) == Next(LaneAt(s, u), m)
  {
    assert LaneAt(s, u) == Lane(Taken(s, u), SlotAt(s.post, u).queue, SlotAt(s.post, u).orphans,
      SlotAt(s.post, u).queued, SlotAt(s.post, u).orphaned, Since(s, u));
  }

  lemma LanesKept(b: Backend, s: Sys, op: Op)
    requires Inv(b, s) && Enabled(b, s, op)
    ensures LanesOk(Step(b, s, op))
  {
    var s' := Step(b, s, op);
    forall u ensures LaneOk(LaneAt(s', u)) && Base(s', u) <= |Received(s', u)| {
      assert LaneOk(LaneAt(s, u)) && Base(s, u) <= |Received(s, u)|;
      if u == TouchedTask(b, s, op) {
        OwnLane(b, s, op);
        assert MoveOf(b, s, op).Takes? ==> LaneAt(s, u).queued;
        NextKeepsLane(LaneAt(s, u), MoveOf(b, s, op));
      } else {
        LaneElsewhere(b, s, op, u);
      }
    }
  }

  /** Which requests stream which tasks after a step. */
  lemma StreamingStep(b: Backend, s: Sys, op: Op)
    requires Enabled(b, s, op)
    ensures Step(b, s, op).streaming ==
      if op.Resume? && MoveOf(b, s, op).Drains? then s.streaming[TouchedTask(b, s, op) := op.request]
      else if MoveOf(b, s, op).Clears? then Without(s.streaming, TouchedTask(b, s, op))
      else s.streaming
  {
  }

  lemma StaysQueued(b: Backend, s: Sys, op: Op, t: string)
    requires Enabled(b, s, op) && SlotAt(s.post, t).queued && (MoveOf(b, s, op).Clears? ==> t != TouchedTask(b, s, op))
    ensures SlotAt(Step(b, s, op).post, t).queued
  {
    SlotStep(b, s, op, t);
  }

  lemma OldStream(b: Backend, s: Sys, op: Op, t: string)
    requires Enabled(b, s, op) && t in s.streaming && StreamAt(b, s, t) && RequestOf(op) != Some(s.streaming[t])
    requires Step(b, s, op).streaming == s.streaming || t != TouchedTask(b, s, op)
    requires MoveOf(b, s, op).Clears? ==> t != TouchedTask(b, s, op)
    ensures t in Step(b, s, op).streaming && StreamAt(b, Step(b, s, op), t)
  {
    StreamingStep(b, s, op);
    StaysQueued(b, s, op, t);
    CallElsewhere(b, s, op, s.streaming[t]);
  }

  lemma NewStream(b: Backend, s: Sys, r: string)
    requires Enabled(b, s, Resume(r)) && MoveOf(b, s, Resume(r)).Drains?
    ensures var t, s' := TouchedTask(b, s, Resume(r)), Step(b, s, Resume(r));
      t in s'.streaming && StreamAt(b, s', t)
  {
  }

  lemma PulledStream(b: Backend, s: Sys, r: string)
    requires Enabled(b, s, Pull(r)) && s.calls[r].task in s.streaming && StreamAt(b, s, s.calls[r].task)
    requires s.streaming[s.calls[r].task] == r
    ensures StreamAt(b, Step(b, s, Pull(r)), s.calls[r].task)
  {
  }

  lemma StreamAtKept(b: Backend, s: Sys, op: Op, t: string)
    requires Inv(b, s) && Enabled(b, s, op) && t in Step(b, s, op).streaming
    ensures StreamAt(b, Step(b, s, op), t)
  {
    StreamingStep(b, s, op);
    if op.Resume? && MoveOf(b, s, op).Drains? && t == TouchedTask(b, s, op) {
      NewStream(b, s, op.request);
    } else {
      assert StreamAt(b, s, t);
      var r := s.streaming[t];
      if RequestOf(op) == Some(r) {
        assert s.calls[r].task == t;
        PulledStream(b, s, r);
      } else {
        assert MoveOf(b, s, op).Clears? ==> StreamOf(b, s, op.request);
        OldStream(b, s, op, t);
      }
    }
  }

  lemma OtherStreamKept(b: Backend, s: Sys, op: Op, r: string)
    requires StreamsOk(b, s) && LiveOnce(b, s) && ResponsesNamed(b, s.post.pending) && Enabled(b, s, op)
    requires RequestOf(op) != Some(r) && r in s.calls && s.calls[r].Streaming?
    ensures r in b && b[r] in Step(b, s, op).streaming && Step(b, s, op).streaming[b[r]] == r
  {
    StreamingStep(b, s, op);
    assert StreamOf(b, s, r);
    if op.Resume? && MoveOf(b, s, op).Drains? {
      AskingMeansFree(b, s, op.request);
    } else if MoveOf(b, s, op).Clears? {
      assert StreamOf(b, s, op.request);
    }
  }

  lemma StreamOfKept(b: Backend, s: Sys, op: Op, r: string)
    requires Inv(b, s) && Enabled(b, s, op) && r in Step(b, s, op).calls && Step(b, s, op).calls[r].Streaming?
    ensures StreamOf(b, Step(b, s, op), r)
  {
    if RequestOf(op) != Some(r) {
      CallElsewhere(b, s, op, r);
      assert StreamOf(b, s, r);
      OtherStreamKept(b, s, op, r);
    } else {
      StreamingStep(b, s, op);
      if op.Pull? {
        assert StreamOf(b, s, r);
      }
    }
  }

  lemma StreamsKept(b: Backend, s: Sys, op: Op)
    requires Inv(b, s) && Enabled(b, s, op)
    ensures StreamsOk(b, Step(b, s, op))
  {
    var s' := Step(b, s, op);
    forall t | t in s'.streaming ensures StreamAt(b, s', t) {
      StreamAtKept(b, s, op, t);
    }
    forall r | r in s'.calls && s'.calls[r].Streaming? ensures StreamOf(b, s', r) {
      StreamOfKept(b, s, op, r);
    }
  }

  lemma LiveKept(b: Backend, s: Sys, op: Op)
    requires Inv(b, s) && Enabled(b, s, op)
    ensures LiveOnce(b, Step(b, s, op))
  {
    var s' := Step(b, s, op);
    forall q ensures Live(s', q) ==> Live(s, q) || op.Begin? {
      if RequestOf(op) != Some(q) {
        CallElsewhere(b, s, op, q);
      }
    }
    forall q | q in s'.calls ensures q in s.calls || (op.Begin? && op.request == q) {
      if RequestOf(op) != Some(q) {
        CallElsewhere(b, s, op, q);
      }
    }
    if op.Begin? {
      BeginLive(b, s, op);
    }
  }

  lemma BeginLive(b: Backend, s: Sys, op: Op)
    requires LiveOnce(b, s) && Enabled(b, s, op) && op.Begin?
    ensures LiveOnce(b, Step(b, s, op))
  {
    var s' := Step(b, s, op);
    assert forall q :: Live(s', q) <==> Live(s, q) || q == op.request;
  }

  lemma AnsweredPending(p: Post, m: Response)
    ensures Answered(p, m).pending ==
      if m.request in p.pending && p.pending[m.request].None? then p.pending[m.request := Some(m)] else p.pending
  {
  }

  lemma FewerPending(b: Backend, pending: map<string, Option<Response>>, r: string)
    requires ResponsesNamed(b, pending)
    ensures ResponsesNamed(b, Without(pending, r)) && ResponsesNamed(b, pending[r := None])
  {
  }

  lemma AnswerNamed(b: Backend, pending: map<string, Option<Response>>, m: Response)
    requires ResponsesNamed(b, pending)
    requires m.task != "" && m.error == "" ==> m.request in b && b[m.request] == m.task
    ensures ResponsesNamed(b, pending[m.request := Some(m)])
  {
  }

  lemma PendingKept(b: Backend, s: Sys, op: Op)
    requires ResponsesNamed(b, s.post.pending) && Enabled(b, s, op)
    ensures ResponsesNamed(b, Step(b, s, op).post.pending)
  {
    var pending := s.post.pending;
    match op
    case Begin(r, _) => FewerPending(b, pending, r);
    case Answer(m) =>
      AnsweredPending(s.post, m);
      AnswerNamed(b, pending, m);
    case Mirror(_) =>
    case Pull(_) =>
    case Resume(r) => FewerPending(b, pending, r);
    case Close(r) => FewerPending(b, pending, r);
    case Abort(r) => FewerPending(b, pending, r);
  }

  lemma CallsKept(b: Backend, s: Sys, op: Op)
    requires Inv(b, s) && Enabled(b, s, op)
    ensures CallsOk(b, Step(b, s, op))
  {
    var s' := Step(b, s, op);
    forall r | r in s'.calls ensures GotOk(s'.calls[r]) {
      if RequestOf(op) == Some(r) {
        GotKept(b, s, op, r);
      } else {
        CallElsewhere(b, s, op, r);
        assert GotOk(s.calls[r]);
      }
    }
    forall r | r in b && r in s'.calls ensures StretchOk(b, s', r) {
      StretchKept(b, s, op, r);
    }
  }

  lemma StretchKept(b: Backend, s: Sys, op: Op, r: string)
    requires Inv(b, s) && Enabled(b, s, op) && r in b && r in Step(b, s, op).calls
    ensures StretchOk(b, Step(b, s, op), r)
  {
    if RequestOf(op) == Some(r) {
      StretchMade(b, s, op, r);
    } else {
      CallElsewhere(b, s, op, r);
      ReceivedGrows(b, s, op, b[r]);
      StretchElsewhere(b, s, Step(b, s, op), r);
    }
  }

  lemma ReceivedGrows(b: Backend, s: Sys, op: Op, u: string)
    requires LanesOk(s) && Enabled(b, s, op)
    ensures Received(s, u) <= Received(Step(b, s, op), u)
  {
    assert LaneOk(LaneAt(s, u));
    SinceStep(b, s, op, u);
  }

  lemma StretchElsewhere(b: Backend, s: Sys, s': Sys, r: string)
    requires r in b && r in s.calls && r in s'.calls && s'.calls[r] == s.calls[r]
    requires Received(s, b[r]) <= Received(s', b[r]) && StretchOk(b, s, r)
    ensures StretchOk(b, s', r)
  {
  }

  lemma GotKept(b: Backend, s: Sys, op: Op, r: string)
    requires Enabled(b, s, op) && RequestOf(op) == Some(r) && (r in s.calls ==> GotOk(s.calls[r]))
    ensures r in Step(b, s, op).calls && GotOk(Step(b, s, op).calls[r])
  {
    if op.Pull? {
      var got, e := s.calls[r].got, Queue(s, s.calls[r].task)[0];
      assert (got + [e])[..|got|] == got;
    }
  }

  lemma StretchMade(b: Backend, s: Sys, op: Op, r: string)
    requires Inv(b, s) && Enabled(b, s, op) && RequestOf(op) == Some(r) && r in b
    ensures r in Step(b, s, op).calls && StretchOk(b, Step(b, s, op), r)
  {
    if MoveOf(b, s, op).Clears? {
      OverStretch(b, s, r);
    } else if op.Abort? || op.Resume? {
      assert !Step(b, s, op).calls[r].Ended? || Step(b, s, op).calls[r].got == [];
    }
  }

  lemma OverStretch(b: Backend, s: Sys, r: string)
    requires Inv(b, s) && r in b && r in s.calls && s.calls[r].Streaming?
    ensures StretchOk(b, Over(s, r), r)
  {
    var t, got := b[r], s.calls[r].got;
    assert StreamOf(b, s, r);
    assert LaneOk(LaneAt(s, t)) && Base(s, t) <= |Received(s, t)|;
    assert Taken(s, t) == got;
    StretchOf(got, Queue(s, t), Orphans(s, t), Received(s, t), Base(s, t));
  }

  lemma StretchOf(got: seq<Event>, queue: seq<Event>, orphans: seq<Event>, all: seq<Event>, n: nat)
    requires n <= |all| && got + queue + orphans == all[n..]
    ensures n + |got| <= |all| && all[n..n + |got|] == got
  {
    assert all[n..][..|got|] == got;
  }

  lemma StepKeepsInv(b: Backend, s: Sys, op: Op)
    requires Inv(b, s) && Enabled(b, s, op)
    ensures Inv(b, Step(b, s, op))
  {
    LanesKept(b, s, op);
    StreamsKept(b, s, op);
    LiveKept(b, s, op);
    CallsKept(b, s, op);
    PendingKept(b, s, op);
  }

  ghost predicate Legal(b: Backend, s: Sys, ops: seq<Op>)
    decreases ops
  {
    ops == [] || (Enabled(b, s, ops[0]) && Legal(b, Step(b, s, ops[0]), ops[1..]))
  }

  ghost function End(b: Backend, s: Sys, ops: seq<Op>): Sys
    requires Legal(b, s, ops)
    decreases ops
  {
    if ops == [] then s else End(b, Step(b, s, ops[0]), ops[1..])
  }

  lemma {:induction false} RunKeepsInv(b: Backend, s: Sys, ops: seq<Op>)
    requires Inv(b, s) && Legal(b, s, ops)
    ensures Inv(b, End(b, s, ops))
    decreases ops
  {
    if ops != [] {
      StepKeepsInv(b, s, ops[0]);
      RunKeepsInv(b, Step(b, s, ops[0]), ops[1..]);
    }
  }

  lemma StartInv(b: Backend)
    ensures Inv(b, START)
  {
  }

  /** In every interleaving of responses, events and consumer steps, with one live call per task id at a time: what
      the call of request `r` has taken, what waits in its task's queue and what waits as orphans are together exactly
      the events received for the task since the last call on it was closed, in order; a queue and orphans never
      coexist; and what an ended call has taken is a stretch of those events. */
  lemma EveryRunConserves(b: Backend, ops: seq<Op>, r: string)
    requires Legal(b, START, ops) && r in b && r in End(b, START, ops).calls
    ensures var s, t := End(b, START, ops), b[r];
      && (Live(s, r) ==>
            && Consumed(s, r) + Queue(s, t) + Orphans(s, t) == Since(s, t)
            && !(t in s.post.queues && t in s.post.orphans))
      && StretchOk(b, s, r)
  {
    var s := End(b, START, ops);
    StartInv(b);
    RunKeepsInv(b, START, ops);
    assert LaneOk(LaneAt(s, b[r]));
    if Live(s, r) && s.calls[r].Asking? {
      AskingMeansFree(b, s, r);
    }
  }

  function Bodies(es: seq<Event>): seq<TaskEvent> {
    seq(|es|, i requires 0 <= i < |es| => es[i].body)
  }

  lemma TerminalDecides(got: seq<Event>, all: seq<Event>)
    requires EndsWithTerminal(got) && got <= all
    ensures !Meaning(Bodies(got)).Pending? && Meaning(Bodies(got)) == Meaning(Bodies(all))
  {
    var n := |got| - 1;
    assert Bodies(got)[..n] == Bodies(all)[..n];
    forall i | 0 <= i < n ensures !Terminal(got[i].body) {
      assert got[..n][i] == got[i];
    }
    assert forall i :: 0 <= i <= n ==> got[i] == all[i];
    MeaningAt(Bodies(got), n);
    MeaningAt(Bodies(all), n);
  }

  /** A call that ran to its end returns or raises what all the events received for its task from its start on mean,
      however those events raced with the response and with each other's tasks. */
  lemma CallMeansItsFeed(b: Backend, ops: seq<Op>, r: string)
    requires Legal(b, START, ops) && r in b
    requires var s := End(b, START, ops); r in s.calls && s.calls[r].Ended? && !s.calls[r].aborted
    ensures var s := End(b, START, ops);
      && s.calls[r].start <= |Received(s, b[r])|
      && !Meaning(Bodies(s.calls[r].got)).Pending?
      && Meaning(Bodies(s.calls[r].got)) == Meaning(Bodies(Received(s, b[r])[s.calls[r].start..]))
  {
    var s := End(b, START, ops);
    StartInv(b);
    RunKeepsInv(b, START, ops);
    assert GotOk(s.calls[r]) && StretchOk(b, s, r);
    StretchDecides(s.calls[r].got, Received(s, b[r]), s.calls[r].start);
  }

  lemma StretchDecides(got: seq<Event>, all: seq<Event>, start: nat)
    requires EndsWithTerminal(got) && start + |got| <= |all| && all[start..start + |got|] == got
    ensures !Meaning(Bodies(got)).Pending? && Meaning(Bodies(got)) == Meaning(Bodies(all[start..]))
  {
    assert all[start..][..|got|] == got;
    TerminalDecides(got, all[start..]);
  }

  /** Once its terminal has been received, a streaming call that has not finished always has a next event to take. */
  lemma TerminalReachesCall(b: Backend, ops: seq<Op>, r: string)
    requires Legal(b, START, ops) && r in b
    requires var s := End(b, START, ops);
      && Live(s, r) && s.calls[r].Streaming? && !s.calls[r].done
      && !NoTerminal(Since(s, b[r]))
    ensures Enabled(b, End(b, START, ops), Pull(r))
  {
    var s := End(b, START, ops);
    StartInv(b);
    RunKeepsInv(b, START, ops);
    assert GotOk(s.calls[r]) && LaneOk(LaneAt(s, b[r]));
    assert s.calls[r].got + Queue(s, b[r]) + [] == s.calls[r].got + Queue(s, b[r]);
  }

  // ---------------------------------------------------------------- what the other dictionaries hold

  /** The last number noted of a task is that of its last event since the last call on it was closed. */
  ghost predicate NumberOk(s: Sys, t: string) {
    var es := Since(s, t);
    (es == [] ==> t !in s.post.lastSeq) &&
    (es != [] ==> t in s.post.lastSeq && s.post.lastSeq[t] == es[|es| - 1].seqNo)
  }

  /** A request is pending from its start to its end, and answered before it streams. */
  ghost predicate PendingOk(s: Sys, r: string) {
    && (r in s.post.pending <==> Live(s, r))
    && (Live(s, r) && s.calls[r].Streaming? ==> s.post.pending[r].Some?)
  }

  ghost predicate StreamsAs(s: Sys, r: string, reference: string, task: string) {
    r in s.calls && s.calls[r].Streaming? && s.calls[r].reference == reference && s.calls[r].task == task
  }

  /** No other request has ever used the reference of `r`. */
  ghost predicate Alone(s: Sys, r: string)
    requires r in s.calls
  {
    forall q :: q in s.calls && q != r ==> s.calls[q].reference != s.calls[r].reference
  }

  /** An entry of the references is that of a call that streams. */
  ghost predicate EntryOk(s: Sys, reference: string) {
    reference in s.post.refToTask ==> exists r :: StreamsAs(s, r, reference, s.post.refToTask[reference])
  }

  /** And a call that streams has its entry, unless another request shared its reference. */
  ghost predicate HasEntry(s: Sys, r: string) {
    r in s.calls && s.calls[r].Streaming? && Alone(s, r) ==>
      var ref := s.calls[r].reference;
      ref in s.post.refToTask && s.post.refToTask[ref] == s.calls[r].task
  }

  ghost predicate Noted(s: Sys) {
    && (forall t :: NumberOk(s, t))
    && (forall r :: PendingOk(s, r))
    && (forall ref :: EntryOk(s, ref))
    && (forall r :: HasEntry(s, r))
  }

  lemma NumberKept(b: Backend, s: Sys, op: Op, t: string)
    requires Enabled(b, s, op) && NumberOk(s, t) && Base(s, t) <= |Received(s, t)|
    ensures NumberOk(Step(b, s, op), t)
  {
    SinceStep(b, s, op, t);
    LastSeqStep(b, s, op, t);
  }

  lemma LastSeqStep(b: Backend, s: Sys, op: Op, t: string)
    requires Enabled(b, s, op)
    ensures var q, q', m := s.post.lastSeq, Step(b, s, op).post.lastSeq, MoveOf(b, s, op);
      if t == TouchedTask(b, s, op) && m.Arrives? then t in q' && q'[t] == m.e.seqNo
      else if t == TouchedTask(b, s, op) && m.Clears? then t !in q'
      else (t in q' <==> t in q) && (t in q ==> q'[t] == q[t])
  {
  }

  lemma PendingStep(b: Backend, s: Sys, op: Op, r: string)
    requires Enabled(b, s, op) && (forall q :: PendingOk(s, q))
    ensures PendingOk(Step(b, s, op), r)
  {
    assert PendingOk(s, r);
    if op.Answer? {
      AnsweredPending(s.post, op.m);
    }
    if RequestOf(op) == Some(r) {
      OwnPending(b, s, op, r);
    } else {
      CallElsewhere(b, s, op, r);
      PendingElsewhere(b, s, op, r);
    }
  }

  lemma OwnPending(b: Backend, s: Sys, op: Op, r: string)
    requires Enabled(b, s, op) && PendingOk(s, r) && RequestOf(op) == Some(r)
    ensures PendingOk(Step(b, s, op), r)
  {
  }

  lemma PendingElsewhere(b: Backend, s: Sys, op: Op, r: string)
    requires Enabled(b, s, op) && RequestOf(op) != Some(r)
    ensures var p, p' := s.post.pending, Step(b, s, op).post.pending;
      (r in p' <==> r in p) && (r in p && p[r].Some? ==> p'[r] == p[r])
  {
    match op
    case Answer(m) => AnsweredPending(s.post, m);
    case Mirror(_) =>
    case Begin(_, _) =>
    case Pull(_) =>
    case _ =>
  }

  /** How a step changes the references: it adds that of a call that begins to stream, and drops that of one that
      ends. */
  lemma ReferenceStep(b: Backend, s: Sys, op: Op)
    requires Enabled(b, s, op)
    ensures var q, s' := s.post.refToTask, Step(b, s, op);
      s'.post.refToTask ==
        if op.Resume? && MoveOf(b, s, op).Drains? then q[s.calls[op.request].reference := TouchedTask(b, s, op)]
        else if op.Resume? || op.Close? || op.Abort? then Without(q, s.calls[op.request].reference)
        else q
  {
    if op.Answer? {
      AnsweredKeepsReferences(s.post, op.m);
    }
  }

  lemma AnsweredKeepsReferences(p: Post, m: Response)
    ensures Answered(p, m).refToTask == p.refToTask
  {
  }

  lemma EntryKept(b: Backend, s: Sys, op: Op, ref: string)
    requires Enabled(b, s, op) && EntryOk(s, ref)
    ensures EntryOk(Step(b, s, op), ref)
  {
    var s' := Step(b, s, op);
    ReferenceStep(b, s, op);
    if ref in s'.post.refToTask {
      if op.Resume? && MoveOf(b, s, op).Drains? && s.calls[op.request].reference == ref {
        assert StreamsAs(s', op.request, ref, s'.post.refToTask[ref]);
      } else {
        var r :| StreamsAs(s, r, ref, s.post.refToTask[ref]);
        StreamKept(b, s, op, r, ref, s.post.refToTask[ref]);
      }
    }
  }

  lemma StreamKept(b: Backend, s: Sys, op: Op, r: string, ref: string, t: string)
    requires Enabled(b, s, op) && StreamsAs(s, r, ref, t)
    requires op.Close? || op.Abort? ==> s.calls[op.request].reference != ref
    ensures StreamsAs(Step(b, s, op), r, ref, t)
  {
    if RequestOf(op) != Some(r) {
      CallElsewhere(b, s, op, r);
    }
  }

  lemma AloneBefore(b: Backend, s: Sys, op: Op, r: string)
    requires Enabled(b, s, op) && r in s.calls && r in Step(b, s, op).calls && Alone(Step(b, s, op), r)
    ensures Alone(s, r) && Step(b, s, op).calls[r].reference == s.calls[r].reference
  {
    forall q | q in s.calls
      ensures q in Step(b, s, op).calls && Step(b, s, op).calls[q].reference == s.calls[q].reference
    {
      if RequestOf(op) != Some(q) {
        CallElsewhere(b, s, op, q);
      }
    }
  }

  lemma EntryStays(b: Backend, s: Sys, op: Op, r: string)
    requires Enabled(b, s, op) && HasEntry(s, r)
    ensures HasEntry(Step(b, s, op), r)
  {
    var s' := Step(b, s, op);
    ReferenceStep(b, s, op);
    if r in s'.calls && s'.calls[r].Streaming? && Alone(s', r) {
      if RequestOf(op) != Some(r) {
        CallElsewhere(b, s, op, r);
      }
      AloneBefore(b, s, op, r);
    }
  }

  lemma NotedKept(b: Backend, s: Sys, op: Op)
    requires Inv(b, s) && Noted(s) && Enabled(b, s, op)
    ensures Noted(Step(b, s, op))
  {
    forall t ensures NumberOk(Step(b, s, op), t) {
      assert LaneOk(LaneAt(s, t)) && Base(s, t) <= |Received(s, t)|;
      NumberKept(b, s, op, t);
    }
    forall r ensures PendingOk(Step(b, s, op), r) && HasEntry(Step(b, s, op), r) {
      PendingStep(b, s, op, r);
      EntryStays(b, s, op, r);
    }
    forall ref ensures EntryOk(Step(b, s, op), ref) {
      EntryKept(b, s, op, ref);
    }
  }

  lemma {:induction false} RunNotes(b: Backend, s: Sys, ops: seq<Op>)
    requires Inv(b, s) && Noted(s) && Legal(b, s, ops)
    ensures Noted(End(b, s, ops))
    decreases ops
  {
    if ops != [] {
      StepKeepsInv(b, s, ops[0]);
      NotedKept(b, s, ops[0]);
      RunNotes(b, Step(b, s, ops[0]), ops[1..]);
    }
  }

  /** In every interleaving a request is pending exactly while it lives; an event is noticed as out of order exactly if
      the last event of its task since the last call on it was closed has the same number or a higher one; every entry
      of the references is that of a call that streams; and a streaming call whose reference no other request has used
      has its entry. */
  lemma EveryRunNotes(b: Backend, ops: seq<Op>, e: Event)
    requires Legal(b, START, ops)
    ensures var s := End(b, START, ops);
      && Noted(s)
      && var es := Since(s, e.task);
         (e.task in s.post.lastSeq && e.seqNo <= s.post.lastSeq[e.task] <==> es != [] && e.seqNo <= es[|es| - 1].seqNo)
  {
    StartInv(b);
    RunNotes(b, START, ops);
    assert NumberOk(End(b, START, ops), e.task);
  }

  /** A response, even a refusal, can always come, and ends the wait of its call: it either fails, with nothing kept of
      it, or streams, with every event since the last call on its task was closed waiting for it. */
  lemma AnswerWakes(b: Backend, ops: seq<Op>, m: Response)
    requires Legal(b, START, ops)
    requires var s := End(b, START, ops);
      && Live(s, m.request) && s.calls[m.request].Asking? && m.request in s.post.pending
      && s.post.pending[m.request] == None
      && (m.task == "" || m.error != "" || (m.request in b && b[m.request] == m.task))
    ensures var s := End(b, START, ops);
      && Enabled(b, s, Answer(m))
      && var s1 := Step(b, s, Answer(m));
      && Enabled(b, s1, Resume(m.request))
      && var s2, ref := Step(b, s1, Resume(m.request)), s.calls[m.request].reference;
      && s2.calls[m.request] == (if m.error != "" || m.task == "" then Ended(ref, true, [], 0)
                                 else Streaming(ref, m.task, [], false))
      && (m.error == "" && m.task != "" ==> Queue(s2, m.task) == Since(s, m.task))
  {
    var s := End(b, START, ops);
    StartInv(b);
    RunKeepsInv(b, START, ops);
    var s1 := Step(b, s, Answer(m));
    AnsweredPending(s.post, m);
    StepKeepsInv(b, s, Answer(m));
    if m.error == "" && m.task != "" {
      WokenQueue(b, s, m);
    }
  }

  lemma WokenQueue(b: Backend, s: Sys, m: Response)
    requires Inv(b, s) && m.error == "" && m.task != "" && m.request in b && b[m.request] == m.task
    requires Live(s, m.request) && s.calls[m.request].Asking?
    requires m.request in s.post.pending && s.post.pending[m.request] == None
    ensures Enabled(b, s, Answer(m)) && Enabled(b, Step(b, s, Answer(m)), Resume(m.request))
    ensures Queue(Step(b, Step(b, s, Answer(m)), Resume(m.request)), m.task) == Since(s, m.task)
  {
    var s1 := Step(b, s, Answer(m));
    AnsweredPending(s.post, m);
    AskingMeansFree(b, s, m.request);
    assert LaneOk(LaneAt(s, m.task));
    SlotStep(b, s, Answer(m), m.task);
    SlotStep(b, s1, Resume(m.request), m.task);
    assert SlotAt(s.post, m.task).queue + SlotAt(s.post, m.task).orphans + [] == Since(s, m.task);
  }

  /** An event of its task can always come, and then a streaming call that has not finished has one to take. */
  lemma EventReachesCall(b: Backend, ops: seq<Op>, r: string, e: Event)
    requires Legal(b, START, ops)
    requires var s := End(b, START, ops);
      Live(s, r) && s.calls[r].Streaming? && !s.calls[r].done && e.task == s.calls[r].task
    ensures var s := End(b, START, ops);
      Enabled(b, s, Mirror(e)) && Enabled(b, Step(b, s, Mirror(e)), Pull(r))
  {
    var s := End(b, START, ops);
    StartInv(b);
    RunKeepsInv(b, START, ops);
    assert StreamOf(b, s, r) && StreamAt(b, s, e.task);
    SlotStep(b, s, Mirror(e), e.task);
  }

  /** When a streaming call ends, however it does, nothing is kept of its task, its request or its reference. */
  lemma NothingKept(b: Backend, ops: seq<Op>, r: string)
    requires Legal(b, START, ops) && Live(End(b, START, ops), r) && End(b, START, ops).calls[r].Streaming?
    ensures var s := End(b, START, ops);
      var t, ref, op := s.calls[r].task, s.calls[r].reference, if s.calls[r].done then Close(r) else Abort(r);
      && Enabled(b, s, op)
      && var p := Step(b, s, op).post;
      && t !in p.queues && t !in p.orphans && t !in p.lastSeq && r !in p.pending && ref !in p.refToTask
      && forall u :: u != t ==> SlotAt(p, u) == SlotAt(s.post, u)
  {
    var s := End(b, START, ops);
    var op := if s.calls[r].done then Close(r) else Abort(r);
    forall u ensures u != s.calls[r].task ==> SlotAt(Step(b, s, op).post, u) == SlotAt(s.post, u) {
      SlotStep(b, s, op, u);
    }
  }

  /** Whatever else answers it, a request keeps its first response until it ends. */
  lemma {:induction false} FirstAnswerStays(b: Backend, s: Sys, ops: seq<Op>, r: string)
    requires Legal(b, s, ops) && r in s.calls && r in s.post.pending && s.post.pending[r].Some?
    ensures var s' := End(b, s, ops);
      r in s'.calls && (r in s'.post.pending ==> s'.post.pending[r] == s.post.pending[r])
    decreases ops
  {
    if ops != [] {
      AnswerKept(b, s, ops[0], r);
      if r in Step(b, s, ops[0]).post.pending {
        FirstAnswerStays(b, Step(b, s, ops[0]), ops[1..], r);
      } else {
        NeverPendingAgain(b, Step(b, s, ops[0]), ops[1..], r);
      }
    }
  }

  lemma AnswerKept(b: Backend, s: Sys, op: Op, r: string)
    requires Enabled(b, s, op) && r in s.calls && r in s.post.pending && s.post.pending[r].Some?
    ensures var s' := Step(b, s, op);
      r in s'.calls && (r in s'.post.pending ==> s'.post.pending[r] == s.post.pending[r])
  {
    match op
    case Answer(m) => AnsweredPending(s.post, m);
    case Mirror(_) =>
    case Begin(_, _) =>
    case Pull(_) =>
    case _ =>
  }

  lemma {:induction false} NeverPendingAgain(b: Backend, s: Sys, ops: seq<Op>, r: string)
    requires Legal(b, s, ops) && r in s.calls && r !in s.post.pending
    ensures r in End(b, s, ops).calls && r !in End(b, s, ops).post.pending
    decreases ops
  {
    if ops != [] {
      NotPendingKept(b, s, ops[0], r);
      NeverPendingAgain(b, Step(b, s, ops[0]), ops[1..], r);
    }
  }

  lemma NotPendingKept(b: Backend, s: Sys, op: Op, r: string)
    requires Enabled(b, s, op) && r in s.calls && r !in s.post.pending
    ensures r in Step(b, s, op).calls && r !in Step(b, s, op).post.pending
  {
    if RequestOf(op) != Some(r) {
      CallElsewhere(b, s, op, r);
      PendingElsewhere(b, s, op, r);
    }
  }
}
