/** Pausing, resuming and cancelling the tasks of one actor: `aprocess`, `on_pause`, `on_resume` and `abreak`
    (rekuest_next/actors/base.py), with every await of `abreak` a place where other messages get in. */
module Breakpoints {
  import opened Prelude
  import OnAssign

  /** Where a task's coroutine is. `Announced` has sent Paused and has not yet looked its future up again.
      `Reported` has sent a terminal report of its own and still gives its locks back. `Ended` is over and stays in
      `_running_asyncio_tasks`; `Removed` was cancelled and does not. `given` counts the terminal reports so far. */
  datatype Place =
    | Running | Announced | Suspended(future: nat) | Reported(given: nat) | Ended(given: nat) | Removed

  /** What is sent, and the two exceptions: `abreak` raising KeyError, `set_result` raising InvalidStateError. */
  datatype Event =
    | Paused(task: string) | Resumed(task: string) | Terminal(task: string) | Cancelled(task: string)
    | BreakRaised(task: string) | ResumeRaised(task: string)

  /** Futures are numbered as they are made; `resolved` have a result, `dead` were cancelled. */
  datatype State = State(breaks: map<string, nat>, resolved: set<nat>, dead: set<nat>, next: nat,
                         places: map<string, Place>, trace: seq<Event>)

  const FRESH := State(map[], {}, {}, 0, map[], [])

  /** The first four are messages; the others are steps of the task's own coroutine. `on_assign` sends no terminal
      report, one or two of them (see `OnAssign`), and awaits its locks' release after the last. */
  datatype Op =
    | Assign(task: string, step: bool) | Pause(task: string) | Resume(task: string, step: bool) | Cancel(task: string)
    | Announce(task: string) | Await(task: string) | Wake(task: string) | Report(task: string) | Finish(task: string)

  /** A task id is assigned once. */
  predicate Enabled(s: State, op: Op) {
    var here := if op.task in s.places then Some(s.places[op.task]) else None;
    match op
    case Assign(_, _) => here.None?
    case Announce(_) => here == Some(Running)
    case Await(_) => here == Some(Announced)
    case Wake(_) => here.Some? && here.value.Suspended? && here.value.future in s.resolved
    case Report(_) => here in {Some(Running), Some(Reported(1))}
    case Finish(_) => here == Some(Running) || (here.Some? && here.value.Reported?)
    case _ => true
  }

  /** Waiting on a future that nobody has resolved. */
  predicate Pending(s: State, t: string) {
    t in s.places && s.places[t].Suspended? && s.places[t].future !in s.resolved
  }

  function Armed(s: State, t: string): State {
    s.(breaks := s.breaks[t := s.next], next := s.next + 1)
  }

  function At(s: State, t: string, p: Place): State {
    s.(places := s.places[t := p])
  }

  function Traced(s: State, e: Event): State {
    s.(trace := s.trace + [e])
  }

  function ResumeStep(s: State, t: string, step: bool): State {
    if t !in s.breaks then s
    else if s.breaks[t] in s.resolved + s.dead then Traced(s, ResumeRaised(t))
    else
      var s' := s.(resolved := s.resolved + {s.breaks[t]});
      if step then Armed(s', t) else s'.(breaks := Without(s.breaks, t))
  }

  /** Cancelling a coroutine that waits on an unresolved future cancels the future too, which stays in the map. */
  function CancelStep(s: State, t: string): State {
    if t !in s.places || s.places[t].Removed? then s
    else if s.places[t].Ended? then Traced(At(s, t, Ended(s.places[t].given + 1)), Cancelled(t))
    else
      var s' := if Pending(s, t) then s.(dead := s.dead + {s.places[t].future}) else s;
      Traced(At(s', t, Removed), Cancelled(t))
  }

  /** The terminal reports that the coroutine itself has sent. */
  function Given(s: State, t: string): nat {
    if t in s.places && s.places[t].Reported? then s.places[t].given else 0
  }

  function Step(s: State, op: Op): State
    requires Enabled(s, op)
  {
    match op
    case Assign(t, step) => At(if step then Armed(s, t) else s, t, Running)
    case Pause(t) => if t in s.breaks then s else Armed(s, t)
    case Resume(t, step) => ResumeStep(s, t, step)
    case Cancel(t) => CancelStep(s, t)
    case Announce(t) => if t in s.breaks then Traced(At(s, t, Announced), Paused(t)) else s
    case Await(t) =>
      if t in s.breaks then At(s, t, Suspended(s.breaks[t])) else Traced(At(s, t, Running), BreakRaised(t))
    case Wake(t) => Traced(At(s, t, Running), Resumed(t))
    case Report(t) => Traced(At(s, t, Reported(Given(s, t) + 1)), Terminal(t))
    case Finish(t) => At(s, t, Ended(Given(s, t)))
  }

  class Actor {
    var breakFutures: map<string, nat>
    var resolved: set<nat>
    var dead: set<nat>
    var made: nat
    var places: map<string, Place>
    var trace: seq<Event>

    ghost function View(): State
      reads this
    {
      State(breakFutures, resolved, dead, made, places, trace)
    }

    constructor ()
      ensures View() == FRESH
    {
      breakFutures, resolved, dead, made, places, trace := map[], {}, {}, 0, map[], [];
    }

    method NewFuture() returns (f: nat)
      modifies this`made
      ensures f == old(made) && made == f + 1
    {
      f := made;
      made := made + 1;
    }

    method OnPause(t: string)
      modifies this
      ensures View() == Step(old(View()), Pause(t))
    {
      if t in breakFutures {
        return;
      }
      var f := NewFuture();
      breakFutures := breakFutures[t := f];
    }

    method OnResume(t: string, step: bool)
      modifies this
      ensures View() == Step(old(View()), Resume(t, step))
    {
      if t in breakFutures {
        var f := breakFutures[t];
        if f in resolved || f in dead {
          trace := trace + [ResumeRaised(t)];
          return;
        }
        resolved := resolved + {f};
        if step {
          var g := NewFuture();
          breakFutures := breakFutures[t := g];
        } else {
          breakFutures := Without(breakFutures, t);
        }
      }
    }

    method ProcessAssign(t: string, step: bool)
      requires t !in places
      modifies this
      ensures View() == Step(old(View()), Assign(t, step))
    {
      if step {
        var f := NewFuture();
        breakFutures := breakFutures[t := f];
      }
      places := places[t := Running];
    }

    method ProcessCancel(t: string)
      modifies this
      ensures View() == Step(old(View()), Cancel(t))
    {
      if t in places && !places[t].Removed? {
        if places[t].Ended? {
          places := places[t := Ended(places[t].given + 1)];
        } else {
          if places[t].Suspended? && places[t].future !in resolved {
            dead := dead + {places[t].future};
          }
          places := places[t := Removed];
        }
        trace := trace + [Cancelled(t)];
      }
    }

    /** `abreak` up to the first await: false is its early return. */
    method Break(t: string) returns (breaking: bool)
      requires t in places && places[t] == Running
      modifies this
      ensures View() == Step(old(View()), Announce(t)) && breaking == (t in old(breakFutures))
    {
      breaking := t in breakFutures;
      if breaking {
        trace := trace + [Paused(t)];
        places := places[t := Announced];
      }
    }

    /** `abreak` once Paused is sent: it reads the map a second time. */
    method AwaitBreak(t: string)
      requires t in places && places[t] == Announced
      modifies this
      ensures View() == Step(old(View()), Await(t))
    {
      if t in breakFutures {
        places := places[t := Suspended(breakFutures[t])];
      } else {
        trace := trace + [BreakRaised(t)];
        places := places[t := Running];
      }
    }

    /** `abreak` once its future has a result. */
    method LeaveBreak(t: string)
      requires t in places && places[t].Suspended? && places[t].future in resolved
      modifies this
      ensures View() == Step(old(View()), Wake(t))
    {
      trace := trace + [Resumed(t)];
      places := places[t := Running];
    }
  }

  ghost predicate Possible(s: State, ops: seq<Op>)
    decreases ops
  {
    ops == [] || (Enabled(s, ops[0]) && Possible(Step(s, ops[0]), ops[1..]))
  }

  function Run(s: State, ops: seq<Op>): State
    requires Possible(s, ops)
    decreases ops
  {
    if ops == [] then s else Run(Step(s, ops[0]), ops[1..])
  }

  // ---------------------------------------------------------------- what every step keeps

  /** Tasks never share a future, a stored future never has a result, a suspended task waits on its stored future
      or on a resolved one, and a stored future is dead only for a task that was cancelled. */
  ghost predicate Inv(s: State) {
    && (forall t :: t in s.breaks ==> s.breaks[t] < s.next && s.breaks[t] !in s.resolved)
    && (forall t, u :: t in s.breaks && u in s.breaks && s.breaks[t] == s.breaks[u] ==> t == u)
    && (forall f :: f in s.resolved ==> f < s.next)
    && (forall f :: f in s.dead ==> f < s.next)
    && s.resolved !! s.dead
    && (forall t :: t in s.places && s.places[t].Suspended? ==> Waits(s, t, s.places[t].future))
    && (forall t :: t in s.breaks && s.breaks[t] in s.dead ==> t in s.places && s.places[t].Removed?)
  }

  ghost predicate Waits(s: State, t: string, f: nat) {
    f < s.next && (f in s.resolved || (t in s.breaks && s.breaks[t] == f && f !in s.dead))
  }

  lemma StepKeepsInv(s: State, op: Op)
    requires Inv(s) && Enabled(s, op)
    ensures Inv(Step(s, op))
  {
    match op
    case Resume(t, step) => ResumeKeepsInv(s, t, step);
    case Cancel(t) => CancelKeepsInv(s, t);
    case Assign(t, step) => AssignKeepsInv(s, t, step);
    case Pause(_) =>
    case _ => CoroutineKeepsInv(s, op);
  }

  lemma CoroutineKeepsInv(s: State, op: Op)
    requires Inv(s) && Enabled(s, op) && (op.Announce? || op.Await? || op.Wake? || op.Report? || op.Finish?)
    ensures Inv(Step(s, op))
  {
    var t, s' := op.task, Step(s, op);
    forall u | u in s'.places && s'.places[u].Suspended? ensures Waits(s', u, s'.places[u].future) {
      assert u != t ==> Waits(s, u, s.places[u].future);
    }
  }

  lemma ResumeKeepsInv(s: State, t: string, step: bool)
    requires Inv(s)
    ensures Inv(ResumeStep(s, t, step))
  {
    var s' := ResumeStep(s, t, step);
    forall u | u in s'.places && s'.places[u].Suspended? ensures Waits(s', u, s'.places[u].future) {
      assert Waits(s, u, s.places[u].future);
    }
  }

  lemma CancelKeepsInv(s: State, t: string)
    requires Inv(s)
    ensures Inv(CancelStep(s, t))
  {
    var s' := CancelStep(s, t);
    forall u | u in s'.places && s'.places[u].Suspended? ensures Waits(s', u, s'.places[u].future) {
      assert Waits(s, u, s.places[u].future);
    }
  }

  lemma AssignKeepsInv(s: State, t: string, step: bool)
    requires Inv(s) && t !in s.places
    ensures Inv(Step(s, Assign(t, step)))
  {
    var s' := Step(s, Assign(t, step));
    forall u | u in s'.places && s'.places[u].Suspended? ensures Waits(s', u, s'.places[u].future) {
      assert Waits(s, u, s.places[u].future);
    }
  }

  lemma {:induction false} RunKeepsInv(s: State, ops: seq<Op>)
    requires Inv(s) && Possible(s, ops)
    ensures Inv(Run(s, ops))
    decreases ops
  {
    if ops != [] {
      StepKeepsInv(s, ops[0]);
      RunKeepsInv(Step(s, ops[0]), ops[1..]);
    }
  }

  // ---------------------------------------------------------------- when set_result meets a finished future

  ghost predicate Poisoned(s: State, t: string) {
    t in s.breaks && s.breaks[t] in s.dead
  }

  /** Somewhere in the run the task was cancelled while it waited at a breakpoint. */
  ghost predicate CancelledAtBreak(s: State, ops: seq<Op>, t: string)
    requires Possible(s, ops)
    decreases ops
  {
    ops != [] && ((ops[0] == Cancel(t) && Pending(s, t)) || CancelledAtBreak(Step(s, ops[0]), ops[1..], t))
  }

  lemma PoisonedByStep(s: State, op: Op, t: string)
    requires Inv(s) && Enabled(s, op)
    ensures Poisoned(Step(s, op), t) <==> Poisoned(s, t) || (op == Cancel(t) && Pending(s, t))
  {
    if op.Cancel? && Pending(s, op.task) {
      assert Waits(s, op.task, s.places[op.task].future);
    }
  }

  lemma {:induction false} PoisonedByRun(s: State, ops: seq<Op>, t: string)
    requires Inv(s) && Possible(s, ops)
    ensures Poisoned(Run(s, ops), t) <==> Poisoned(s, t) || CancelledAtBreak(s, ops, t)
    decreases ops
  {
    if ops != [] {
      PoisonedByStep(s, ops[0], t);
      StepKeepsInv(s, ops[0]);
      PoisonedByRun(Step(s, ops[0]), ops[1..], t);
    }
  }

  /** Over every run, a Resume finds a finished future exactly when its task was cancelled while suspended at a
      breakpoint: then every later Resume raises, and otherwise none does. */
  lemma ResumeRaisesIff(ops: seq<Op>, t: string, step: bool)
    requires Possible(FRESH, ops)
    ensures var s := Run(FRESH, ops);
      && (CancelledAtBreak(FRESH, ops, t) ==> Step(s, Resume(t, step)) == Traced(s, ResumeRaised(t)))
      && (!CancelledAtBreak(FRESH, ops, t) ==> Step(s, Resume(t, step)).trace == s.trace)
  {
    RunKeepsInv(FRESH, ops);
    PoisonedByRun(FRESH, ops, t);
  }

  // ---------------------------------------------------------------- what one task reports

  /** What a task's breakpoints show, in order. */
  function Own(trace: seq<Event>, t: string): seq<Event> {
    if trace == [] then []
    else Own(trace[..|trace| - 1], t) + if AtBreak(trace[|trace| - 1], t) then [trace[|trace| - 1]] else []
  }

  predicate AtBreak(e: Event, t: string) {
    e in {Paused(t), Resumed(t), BreakRaised(t)}
  }

  lemma OwnAppend(trace: seq<Event>, e: Event, t: string)
    ensures Own(trace + [e], t) == Own(trace, t) + if AtBreak(e, t) then [e] else []
  {
    assert (trace + [e])[..|trace|] == trace;
  }

  /** What one step adds to it. */
  function Shows(s: State, op: Op): seq<Event>
    requires Enabled(s, op)
  {
    match op
    case Announce(t) => if t in s.breaks then [Paused(t)] else []
    case Await(t) => if t in s.breaks then [] else [BreakRaised(t)]
    case Wake(t) => [Resumed(t)]
    case _ => []
  }

  /** Everything one step adds to the trace. */
  function Emits(s: State, op: Op): seq<Event>
    requires Enabled(s, op)
  {
    match op
    case Resume(t, _) => if t in s.breaks && s.breaks[t] in s.resolved + s.dead then [ResumeRaised(t)] else []
    case Cancel(t) => if t in s.places && !s.places[t].Removed? then [Cancelled(t)] else []
    case Report(t) => [Terminal(t)]
    case _ => Shows(s, op)
  }

  lemma TraceStep(s: State, op: Op)
    requires Enabled(s, op)
    ensures Step(s, op).trace == s.trace + Emits(s, op)
  {
    assert s.trace + [] == s.trace;
  }

  lemma OwnStep(s: State, op: Op, t: string)
    requires Enabled(s, op)
    ensures Own(Step(s, op).trace, t) == Own(s.trace, t) + if op.task == t then Shows(s, op) else []
  {
    TraceStep(s, op);
    OwnEmitted(s.trace, Emits(s, op), t);
  }

  lemma OwnEmitted(trace: seq<Event>, more: seq<Event>, t: string)
    requires |more| <= 1
    ensures Own(trace + more, t) == Own(trace, t) + if more != [] && AtBreak(more[0], t) then more else []
  {
    if more == [] {
      assert trace + more == trace && Own(trace, t) + [] == Own(trace, t);
    } else {
      assert more == [more[0]];
      OwnAppend(trace, more[0], t);
    }
  }

  /** Paused, then Resumed or the exception of `abreak`, and so on. */
  ghost predicate Alternates(es: seq<Event>) {
    forall i :: 0 <= i < |es| ==> es[i].Paused? == (i % 2 == 0)
  }

  function Here(s: State, t: string): Option<Place> {
    if t in s.places then Some(s.places[t]) else None
  }

  /** An unanswered Paused is there exactly while the task is at the breakpoint (a cancelled one may leave one). */
  ghost predicate Fits(es: seq<Event>, here: Option<Place>) {
    Alternates(es) &&
    match here
    case None => |es| == 0
    case Some(Removed) => true
    case Some(Announced) => |es| % 2 == 1
    case Some(Suspended(_)) => |es| % 2 == 1
    case Some(_) => |es| % 2 == 0
  }

  ghost predicate InTurn(s: State, t: string) {
    Fits(Own(s.trace, t), Here(s, t))
  }

  lemma AlternatesAppend(es: seq<Event>, e: Event)
    requires Alternates(es) && e.Paused? == (|es| % 2 == 0)
    ensures Alternates(es + [e]) && |es + [e]| % 2 == 1 - |es| % 2
  {
  }

  lemma TurnKept(s: State, op: Op, t: string)
    requires Enabled(s, op) && InTurn(s, t)
    ensures InTurn(Step(s, op), t)
  {
    OwnStep(s, op, t);
    var es, es' := Own(s.trace, t), Own(Step(s, op).trace, t);
    assert es + [] == es;
    if op.task != t {
      OthersStay(s, op, t);
    } else if Shows(s, op) == [] {
      QuietTurn(s, op, es);
    } else {
      ShownTurn(s, op, es);
    }
  }

  lemma ShownTurn(s: State, op: Op, es: seq<Event>)
    requires Enabled(s, op) && Fits(es, Here(s, op.task)) && Shows(s, op) != []
    ensures Fits(es + Shows(s, op), Here(Step(s, op), op.task))
  {
    match op
    case Announce(t) => AlternatesAppend(es, Paused(t));
    case Await(t) => AlternatesAppend(es, BreakRaised(t));
    case Wake(t) => AlternatesAppend(es, Resumed(t));
    case _ =>
  }

  lemma QuietTurn(s: State, op: Op, es: seq<Event>)
    requires Enabled(s, op) && Fits(es, Here(s, op.task)) && Shows(s, op) == []
    ensures Fits(es, Here(Step(s, op), op.task))
  {
    QuietStep(s, op);
  }

  lemma OthersStay(s: State, op: Op, t: string)
    requires Enabled(s, op) && op.task != t
    ensures Here(Step(s, op), t) == Here(s, t)
  {
  }

  /** A step that shows nothing leaves the breakpoint only by a cancel, and enters it only as far as waiting. */
  lemma QuietStep(s: State, op: Op)
    requires Enabled(s, op) && Shows(s, op) == []
    ensures var now, was := Here(Step(s, op), op.task), Here(s, op.task);
      || now == was
      || now == Some(Removed)
      || (was == Some(Announced) && now.Some? && now.value.Suspended?)
      || (was == None && now == Some(Running))
      || (was in {Some(Running), Some(Reported(1))} && now.Some? && now.value.Reported?)
      || (was.Some? && (was.value.Running? || was.value.Reported?) && now.Some? && now.value.Ended?)
      || (was.Some? && was.value.Ended? && now.Some? && now.value.Ended?)
  {
  }

  lemma {:induction false} RunInTurn(s: State, ops: seq<Op>, t: string)
    requires Possible(s, ops) && InTurn(s, t)
    ensures InTurn(Run(s, ops), t)
    decreases ops
  {
    if ops != [] {
      TurnKept(s, ops[0], t);
      RunInTurn(Step(s, ops[0]), ops[1..], t);
    }
  }

  /** In every run, each Paused of a task is answered by one Resumed, or by `abreak` raising, before its next. */
  lemma PausedAndResumedAlternate(ops: seq<Op>, t: string)
    requires Possible(FRESH, ops)
    ensures Alternates(Own(Run(FRESH, ops).trace, t))
  {
    RunInTurn(FRESH, ops, t);
  }

  // ---------------------------------------------------------------- a Resume that races the Paused report

  predicate Resumes(op: Op, t: string) {
    op.Resume? && op.task == t
  }

  /** Somewhere in the run the task is resumed. */
  predicate AnyResume(ops: seq<Op>, t: string) {
    ops != [] && (Resumes(ops[0], t) || AnyResume(ops[1..], t))
  }

  /** Whether the task has a break future after these messages, if it had one before: the last Pause or Resume
      of it decides. */
  predicate ArmedAfter(ops: seq<Op>, t: string, before: bool)
    decreases ops
  {
    if ops == [] then before
    else
      ArmedAfter(ops[1..], t,
        if ops[0] == Pause(t) then true else if Resumes(ops[0], t) then before && ops[0].step else before)
  }

  /** What happens between the Paused report of `t` and its second look at the map: nothing of `t` itself. */
  ghost predicate Meanwhile(ops: seq<Op>, t: string) {
    forall i :: 0 <= i < |ops| ==> ops[i] == Pause(t) || Resumes(ops[i], t) || ops[i].task != t
  }

  /** The future that Paused was sent for is `f`; what is in the map now is `f`, or a later one, or nothing. */
  lemma {:induction false} GapRun(s: State, ops: seq<Op>, t: string, f: nat)
    requires Inv(s) && Possible(s, ops) && Meanwhile(ops, t)
    requires t in s.places && s.places[t] == Announced
    requires f < s.next && (f in s.resolved || (t in s.breaks && s.breaks[t] == f))
    ensures var s' := Run(s, ops);
      && t in s'.places && s'.places[t] == Announced
      && (t in s'.breaks <==> ArmedAfter(ops, t, t in s.breaks))
      && ((t in s'.breaks && s'.breaks[t] == f) <==> (t in s.breaks && s.breaks[t] == f && !AnyResume(ops, t)))
    decreases ops
  {
    if ops != [] {
      var s' := Step(s, ops[0]);
      StepKeepsInv(s, ops[0]);
      GapStep(s, ops[0], t, f);
      assert Meanwhile(ops[1..], t) by {
        assert forall i :: 0 <= i < |ops[1..]| ==> ops[1..][i] == ops[i + 1];
      }
      GapRun(s', ops[1..], t, f);
    }
  }

  lemma GapStep(s: State, op: Op, t: string, f: nat)
    requires Inv(s) && Enabled(s, op) && (op == Pause(t) || Resumes(op, t) || op.task != t)
    requires t in s.places && s.places[t] == Announced
    requires f < s.next && (f in s.resolved || (t in s.breaks && s.breaks[t] == f))
    ensures var s' := Step(s, op);
      && t in s'.places && s'.places[t] == Announced
      && f < s'.next && (f in s'.resolved || (t in s'.breaks && s'.breaks[t] == f))
      && (t in s'.breaks <==> ArmedAfter([op], t, t in s.breaks))
      && ((t in s'.breaks && s'.breaks[t] == f) <==> (t in s.breaks && s.breaks[t] == f && !Resumes(op, t)))
  {
    assert ArmedAfter([op], t, t in s.breaks) ==
      if op == Pause(t) then true else if Resumes(op, t) then t in s.breaks && op.step else t in s.breaks by {
      assert [op][1..] == [];
    }
    assert t in s.breaks ==> s.breaks[t] !in s.dead;
  }

  /** `abreak` reads the map again after sending Paused. If the task is resumed in between it does not wait on the
      future it announced: it raises KeyError when the last control of the task is a plain Resume, and otherwise
      waits on a new future, so that the Resume is lost. If it is not resumed in between, neither can happen. */
  lemma BreakSurvivesGapIff(s: State, ops: seq<Op>, t: string)
    requires Inv(s) && t in s.breaks && Enabled(s, Announce(t))
    requires Possible(Step(s, Announce(t)), ops) && Meanwhile(ops, t)
    ensures var s' := Run(Step(s, Announce(t)), ops);
      && Enabled(s', Await(t))
      && (Here(Step(s', Await(t)), t) == Some(Suspended(s.breaks[t])) <==> !AnyResume(ops, t))
      && (Step(s', Await(t)).trace == s'.trace + [BreakRaised(t)] <==> !ArmedAfter(ops, t, true))
      && (AnyResume(ops, t) && ArmedAfter(ops, t, true) ==> Pending(Step(s', Await(t)), t))
  {
    var s1 := Step(s, Announce(t));
    StepKeepsInv(s, Announce(t));
    GapRun(s1, ops, t, s.breaks[t]);
    RunKeepsInv(s1, ops);
  }

  // ---------------------------------------------------------------- resuming by one step

  /** Where a task can be after it was resumed by a step from a wait on `f`, when it had shown `base` until then. */
  ghost predicate Stepping(s: State, t: string, f: nat, g: nat, base: seq<Event>) {
    && t in s.breaks && s.breaks[t] == g && g !in s.resolved && f in s.resolved && t in s.places
    && match s.places[t]
       case Suspended(h) => Own(s.trace, t) == if h == g then base + [Resumed(t), Paused(t)] else base
       case Announced => Own(s.trace, t) == base + [Resumed(t), Paused(t)]
       case Removed => Own(s.trace, t) in {base, base + [Resumed(t)], base + [Resumed(t), Paused(t)]}
       case _ => Own(s.trace, t) == base + [Resumed(t)]
  }

  lemma SteppingKept(s: State, op: Op, t: string, f: nat, g: nat, base: seq<Event>)
    requires Inv(s) && Enabled(s, op) && !Resumes(op, t) && Stepping(s, t, f, g, base)
    ensures Stepping(Step(s, op), t, f, g, base)
    ensures op == Announce(t) ==> Own(Step(s, op).trace, t) == base + [Resumed(t), Paused(t)]
  {
    OwnStep(s, op, t);
    assert Own(s.trace, t) + [] == Own(s.trace, t);
    if op.task != t {
      OthersStay(s, op, t);
      OthersLeaveFuture(s, op, t);
    } else {
      OwnStepping(s, op, f, g, base);
    }
  }

  lemma OthersLeaveFuture(s: State, op: Op, t: string)
    requires Inv(s) && Enabled(s, op) && op.task != t && t in s.breaks
    ensures var s' := Step(s, op);
      && t in s'.breaks && s'.breaks[t] == s.breaks[t] && s'.breaks[t] !in s'.resolved
      && s.resolved <= s'.resolved
  {
    assert op.task in s.breaks ==> s.breaks[op.task] != s.breaks[t];
  }

  lemma OwnStepping(s: State, op: Op, f: nat, g: nat, base: seq<Event>)
    requires Inv(s) && Enabled(s, op) && !op.Resume? && Stepping(s, op.task, f, g, base)
    requires Own(Step(s, op).trace, op.task) == Own(s.trace, op.task) + Shows(s, op)
    ensures Stepping(Step(s, op), op.task, f, g, base)
    ensures op.Announce? ==> Own(Step(s, op).trace, op.task) == base + [Resumed(op.task), Paused(op.task)]
  {
    match op
    case Announce(t) => assert base + [Resumed(t)] + [Paused(t)] == base + [Resumed(t), Paused(t)];
    case Wake(t) =>
    case _ => QuietStepping(s, op, f, g, base);
  }

  lemma QuietStepping(s: State, op: Op, f: nat, g: nat, base: seq<Event>)
    requires Inv(s) && Enabled(s, op) && !op.Resume? && Stepping(s, op.task, f, g, base)
    requires !op.Announce? && !op.Wake? && Own(Step(s, op).trace, op.task) == Own(s.trace, op.task) + Shows(s, op)
    ensures Stepping(Step(s, op), op.task, f, g, base)
  {
    assert Own(s.trace, op.task) + [] == Own(s.trace, op.task);
  }

  lemma {:induction false} SteppingRun(s: State, ops: seq<Op>, t: string, f: nat, g: nat, base: seq<Event>)
    requires Inv(s) && Possible(s, ops) && !AnyResume(ops, t) && Stepping(s, t, f, g, base)
    ensures Stepping(Run(s, ops), t, f, g, base) && Inv(Run(s, ops))
    ensures Own(s.trace, t) <= Own(Run(s, ops).trace, t)
    ensures Announce(t) in ops ==> Own(Run(s, ops).trace, t) == base + [Resumed(t), Paused(t)]
    decreases ops
  {
    if ops != [] {
      SteppingKept(s, ops[0], t, f, g, base);
      StepKeepsInv(s, ops[0]);
      OwnStep(s, ops[0], t);
      SteppingRun(Step(s, ops[0]), ops[1..], t, f, g, base);
    }
  }

  /** A task that is suspended and then resumed by a step passes this breakpoint and stops at the very next one,
      whatever else happens, until it is resumed again: all it can show is one Resumed and then one Paused, and
      once it reaches the next breakpoint it has shown both and cannot go on. */
  lemma StepStopsAtNextBreak(s: State, ops: seq<Op>, t: string)
    requires Inv(s) && Pending(s, t)
    requires Possible(Step(s, Resume(t, true)), ops) && !AnyResume(ops, t)
    ensures var s1 := Step(s, Resume(t, true));
      var own, s' := Own(s.trace, t), Run(s1, ops);
      && Enabled(s1, Wake(t))
      && Own(s'.trace, t) in {own, own + [Resumed(t)], own + [Resumed(t), Paused(t)]}
      && (Announce(t) in ops ==> Own(s'.trace, t) == own + [Resumed(t), Paused(t)] && !Enabled(s', Wake(t)))
  {
    var s1, f := Step(s, Resume(t, true)), s.places[t].future;
    assert Waits(s, t, f);
    OwnStep(s, Resume(t, true), t);
    assert Own(s.trace, t) + [] == Own(s.trace, t);
    StepKeepsInv(s, Resume(t, true));
    assert Stepping(s1, t, f, s.next, Own(s.trace, t));
    SteppingRun(s1, ops, t, f, s.next, Own(s.trace, t));
  }

  predicate AnyPause(ops: seq<Op>, t: string) {
    ops != [] && (ops[0] == Pause(t) || AnyPause(ops[1..], t))
  }

  /** Running on with no break future. */
  ghost predicate Free(s: State, t: string, base: seq<Event>) {
    && t !in s.breaks && t in s.places && !s.places[t].Announced?
    && Own(s.trace, t) in {base, base + [Resumed(t)]}
    && (s.places[t].Suspended? ==> Own(s.trace, t) == base)
    && (s.places[t].Running? || s.places[t].Reported? || s.places[t].Ended? ==> Own(s.trace, t) == base + [Resumed(t)])
  }

  lemma {:induction false} FreeRun(s: State, ops: seq<Op>, t: string, base: seq<Event>)
    requires Possible(s, ops) && !AnyResume(ops, t) && !AnyPause(ops, t) && Free(s, t, base)
    ensures Free(Run(s, ops), t, base)
    decreases ops
  {
    if ops != [] {
      FreeStep(s, ops[0], t, base);
      FreeRun(Step(s, ops[0]), ops[1..], t, base);
    }
  }

  lemma FreeStep(s: State, op: Op, t: string, base: seq<Event>)
    requires Enabled(s, op) && !Resumes(op, t) && op != Pause(t) && Free(s, t, base)
    ensures Free(Step(s, op), t, base)
  {
    OwnStep(s, op, t);
    assert Own(s.trace, t) + [] == Own(s.trace, t);
    if op.task != t {
      OthersStay(s, op, t);
    }
  }

  /** Resumed without a step, it passes every further breakpoint until it is paused again. */
  lemma PlainResumeRunsThrough(s: State, ops: seq<Op>, t: string)
    requires Inv(s) && Pending(s, t)
    requires Possible(Step(s, Resume(t, false)), ops) && !AnyResume(ops, t) && !AnyPause(ops, t)
    ensures var s1 := Step(s, Resume(t, false));
      var own, s' := Own(s.trace, t), Run(s1, ops);
      && Enabled(s1, Wake(t))
      && Own(s'.trace, t) in {own, own + [Resumed(t)]}
      && (Enabled(s', Announce(t)) ==> Step(s', Announce(t)) == s')
  {
    assert Waits(s, t, s.places[t].future);
    OwnStep(s, Resume(t, false), t);
    assert Own(s.trace, t) + [] == Own(s.trace, t);
    FreeRun(Step(s, Resume(t, false)), ops, t, Own(s.trace, t));
  }

  // ---------------------------------------------------------------- assigned by one step, or not

  /** Where a task can be that was assigned by a step and not resumed since, with break future `g`. */
  ghost predicate Stopping(s: State, t: string, g: nat, base: seq<Event>) {
    && t in s.breaks && s.breaks[t] == g && g !in s.resolved && t in s.places
    && match s.places[t]
       case Suspended(h) => h == g && Own(s.trace, t) == base + [Paused(t)]
       case Announced => Own(s.trace, t) == base + [Paused(t)]
       case Removed => Own(s.trace, t) in {base, base + [Paused(t)]}
       case _ => Own(s.trace, t) == base
  }

  lemma StoppingKept(s: State, op: Op, t: string, g: nat, base: seq<Event>)
    requires Inv(s) && Enabled(s, op) && !Resumes(op, t) && Stopping(s, t, g, base)
    ensures Stopping(Step(s, op), t, g, base)
    ensures op == Announce(t) ==> Own(Step(s, op).trace, t) == base + [Paused(t)]
  {
    OwnStep(s, op, t);
    assert Own(s.trace, t) + [] == Own(s.trace, t);
    if op.task != t {
      OthersStay(s, op, t);
      OthersLeaveFuture(s, op, t);
    }
  }

  lemma {:induction false} StoppingRun(s: State, ops: seq<Op>, t: string, g: nat, base: seq<Event>)
    requires Inv(s) && Possible(s, ops) && !AnyResume(ops, t) && Stopping(s, t, g, base)
    ensures Stopping(Run(s, ops), t, g, base) && Inv(Run(s, ops))
    ensures Own(s.trace, t) <= Own(Run(s, ops).trace, t)
    ensures Announce(t) in ops ==> Own(Run(s, ops).trace, t) == base + [Paused(t)]
    decreases ops
  {
    if ops != [] {
      StoppingKept(s, ops[0], t, g, base);
      StepKeepsInv(s, ops[0]);
      OwnStep(s, ops[0], t);
      StoppingRun(Step(s, ops[0]), ops[1..], t, g, base);
    }
  }

  /** A task that is assigned by a step stops at its first breakpoint, whatever else happens, until it is resumed: it
      shows one Paused as soon as it reaches one, and cannot go on. */
  lemma SteppedAssignStops(s: State, ops: seq<Op>, t: string)
    requires Inv(s) && Enabled(s, Assign(t, true))
    requires Possible(Step(s, Assign(t, true)), ops) && !AnyResume(ops, t)
    ensures var own, s' := Own(s.trace, t), Run(Step(s, Assign(t, true)), ops);
      && Own(s'.trace, t) in {own, own + [Paused(t)]} && !Enabled(s', Wake(t))
      && (Announce(t) in ops ==> Own(s'.trace, t) == own + [Paused(t)])
  {
    var s1 := Step(s, Assign(t, true));
    StepKeepsInv(s, Assign(t, true));
    OwnStep(s, Assign(t, true), t);
    assert Own(s.trace, t) + [] == Own(s.trace, t);
    assert Stopping(s1, t, s.next, Own(s.trace, t));
    StoppingRun(s1, ops, t, s.next, Own(s.trace, t));
  }

  /** A task that is neither assigned by a step nor paused shows nothing at its breakpoints, in any run. */
  lemma {:induction false} UnarmedRunsThrough(s: State, ops: seq<Op>, t: string)
    requires Possible(s, ops) && Assign(t, true) !in ops && Pause(t) !in ops
    requires t !in s.breaks && (t in s.places ==> !s.places[t].Announced? && !s.places[t].Suspended?)
    ensures Own(Run(s, ops).trace, t) == Own(s.trace, t) && t !in Run(s, ops).breaks
    decreases ops
  {
    if ops != [] {
      OwnStep(s, ops[0], t);
      assert Own(s.trace, t) + [] == Own(s.trace, t);
      if ops[0].task != t {
        OthersStay(s, ops[0], t);
      }
      UnarmedRunsThrough(Step(s, ops[0]), ops[1..], t);
    }
  }

  /** From the start of the actor. */
  lemma PlainAssignRunsThrough(ops: seq<Op>, t: string)
    requires Possible(FRESH, ops) && Assign(t, true) !in ops && Pause(t) !in ops
    ensures Own(Run(FRESH, ops).trace, t) == []
  {
    UnarmedRunsThrough(FRESH, ops, t);
  }

  /** A Pause of a running task makes it stop at its next breakpoint in the same way. */
  lemma PauseStops(s: State, ops: seq<Op>, t: string)
    requires Inv(s) && t in s.places && s.places[t].Running? && t !in s.breaks
    requires Possible(Step(s, Pause(t)), ops) && !AnyResume(ops, t)
    ensures var own, s' := Own(s.trace, t), Run(Step(s, Pause(t)), ops);
      && Own(s'.trace, t) in {own, own + [Paused(t)]} && !Enabled(s', Wake(t))
      && (Announce(t) in ops ==> Own(s'.trace, t) == own + [Paused(t)])
  {
    var s1 := Step(s, Pause(t));
    StepKeepsInv(s, Pause(t));
    OwnStep(s, Pause(t), t);
    assert Own(s.trace, t) + [] == Own(s.trace, t);
    assert Stopping(s1, t, s.next, Own(s.trace, t));
    StoppingRun(s1, ops, t, s.next, Own(s.trace, t));
  }

  // ---------------------------------------------------------------- terminal reports

  function Terminals(trace: seq<Event>, t: string): nat {
    if trace == [] then 0
    else Terminals(trace[..|trace| - 1], t) + if trace[|trace| - 1] in {Terminal(t), Cancelled(t)} then 1 else 0
  }

  /** The terminal reports of a task that can still give more. */
  function Open(s: State, t: string): nat {
    if t in s.places && (s.places[t].Reported? || s.places[t].Ended?) then s.places[t].given else 0
  }

  /** The step is one more terminal report: the task's own, or the answer to a Cancel of a task that is there. */
  predicate Reports(s: State, op: Op, t: string) {
    op == Report(t) || (op == Cancel(t) && t in s.places && !s.places[t].Removed?)
  }

  predicate Signals(op: Op, t: string) {
    op == Report(t) || op == Cancel(t)
  }

  ghost predicate AnySignal(ops: seq<Op>, t: string) {
    exists j :: 0 <= j < |ops| && Signals(ops[j], t)
  }

  /** After a report of the task's own, or after a Cancel of the task when its coroutine was over, comes another report
      or Cancel. */
  ghost predicate SignalledAgain(ops: seq<Op>, t: string, over: bool) {
    exists i, j :: 0 <= i < j < |ops| && Signals(ops[i], t) && Signals(ops[j], t)
                   && (ops[i] == Report(t) || over || Finish(t) in ops[..i])
  }

  lemma AnySignalFirst(ops: seq<Op>, t: string)
    requires ops != []
    ensures AnySignal(ops, t) <==> Signals(ops[0], t) || AnySignal(ops[1..], t)
  {
    if j :| 0 <= j < |ops| && Signals(ops[j], t) {
      assert j == 0 || ops[1..][j - 1] == ops[j];
    }
    if j :| 0 <= j < |ops[1..]| && Signals(ops[1..][j], t) {
      assert ops[j + 1] == ops[1..][j];
    }
  }

  lemma SignalledFirst(ops: seq<Op>, t: string, over: bool)
    requires ops != []
    ensures SignalledAgain(ops, t, over) <==>
              || (Signals(ops[0], t) && (ops[0] == Report(t) || over) && AnySignal(ops[1..], t))
              || SignalledAgain(ops[1..], t, over || ops[0] == Finish(t))
  {
    if SignalledAgain(ops, t, over) {
      SignalledSplit(ops, t, over);
    }
    SignalledJoin(ops, t, over);
  }

  lemma SignalledSplit(ops: seq<Op>, t: string, over: bool)
    requires ops != [] && SignalledAgain(ops, t, over)
    ensures || (Signals(ops[0], t) && (ops[0] == Report(t) || over) && AnySignal(ops[1..], t))
            || SignalledAgain(ops[1..], t, over || ops[0] == Finish(t))
  {
    var rest := ops[1..];
    var i, j :| 0 <= i < j < |ops| && Signals(ops[i], t) && Signals(ops[j], t)
                && (ops[i] == Report(t) || over || Finish(t) in ops[..i]);
    assert rest[j - 1] == ops[j];
    if i > 0 {
      assert rest[i - 1] == ops[i] && ops[..i] == [ops[0]] + rest[..i - 1];
    }
  }

  lemma SignalledJoin(ops: seq<Op>, t: string, over: bool)
    requires ops != []
    ensures Signals(ops[0], t) && (ops[0] == Report(t) || over) && AnySignal(ops[1..], t) ==>
              SignalledAgain(ops, t, over)
    ensures SignalledAgain(ops[1..], t, over || ops[0] == Finish(t)) ==> SignalledAgain(ops, t, over)
  {
    var rest := ops[1..];
    if j :| 0 <= j < |rest| && Signals(rest[j], t) {
      assert ops[j + 1] == rest[j];
    }
    if i, j :| 0 <= i < j < |rest| && Signals(rest[i], t) && Signals(rest[j], t)
               && (rest[i] == Report(t) || over || ops[0] == Finish(t) || Finish(t) in rest[..i]) {
      assert ops[i + 1] == rest[i] && ops[j + 1] == rest[j] && ops[..i + 1] == [ops[0]] + rest[..i];
    }
  }

  lemma AgainIsAny(ops: seq<Op>, t: string, over: bool)
    requires SignalledAgain(ops, t, over)
    ensures AnySignal(ops, t)
  {
  }

  /** The task gives a second terminal report from here on. */
  ghost predicate ReportsAgain(s: State, ops: seq<Op>, t: string) {
    if Open(s, t) > 0 then AnySignal(ops, t)
    else SignalledAgain(ops, t, Here(s, t) == Some(Ended(0)))
  }

  lemma TerminalsStep(s: State, op: Op, t: string)
    requires Enabled(s, op)
    ensures Terminals(Step(s, op).trace, t) == Terminals(s.trace, t) + if Reports(s, op, t) then 1 else 0
  {
    TraceStep(s, op);
    var more := Emits(s, op);
    if more == [] {
      assert s.trace + more == s.trace;
    } else {
      assert (s.trace + more)[..|s.trace|] == s.trace && (s.trace + more)[|s.trace|] == more[0];
    }
  }

  /** What a place says about the reports given: a removed task has given one at least, and can give none. */
  ghost predicate Counted(s: State, t: string) {
    var n := Terminals(s.trace, t);
    match Here(s, t)
    case Some(Removed) => n > 0
    case Some(Reported(given)) => n == given > 0
    case Some(Ended(given)) => n == given
    case _ => n == 0
  }

  lemma CountedKept(s: State, op: Op, t: string)
    requires Enabled(s, op) && Counted(s, t)
    ensures Counted(Step(s, op), t)
    ensures Reports(s, op, t) ==> Terminals(s.trace, t) == Open(s, t)
  {
    TerminalsStep(s, op, t);
    if op.task != t {
      OthersStay(s, op, t);
    }
  }

  lemma {:induction false} TerminalsGrow(s: State, ops: seq<Op>, t: string)
    requires Possible(s, ops)
    ensures Terminals(Run(s, ops).trace, t) >= Terminals(s.trace, t)
    decreases ops
  {
    if ops != [] {
      TerminalsStep(s, ops[0], t);
      TerminalsGrow(Step(s, ops[0]), ops[1..], t);
    }
  }

  lemma AgainStep(s: State, ops: seq<Op>, t: string)
    requires ops != [] && Enabled(s, ops[0]) && Counted(s, t) && Terminals(s.trace, t) <= 1
    requires !Reports(s, ops[0], t) || Open(s, t) == 0
    ensures ReportsAgain(s, ops, t) <==> ReportsAgain(Step(s, ops[0]), ops[1..], t)
  {
    AnySignalFirst(ops, t);
    SignalledFirst(ops, t, Here(s, t) == Some(Ended(0)));
    if ops[0].task != t {
      OthersStay(s, ops[0], t);
    }
    if SignalledAgain(ops[1..], t, true) {
      AgainIsAny(ops[1..], t, true);
    }
    if SignalledAgain(ops[1..], t, false) {
      AgainIsAny(ops[1..], t, false);
    }
  }

  lemma {:induction false} MoreThanOneIff(s: State, ops: seq<Op>, t: string)
    requires Possible(s, ops) && Counted(s, t) && Terminals(s.trace, t) <= 1
    ensures Terminals(Run(s, ops).trace, t) > 1 <==> ReportsAgain(s, ops, t)
    decreases ops
  {
    if ops != [] {
      var s' := Step(s, ops[0]);
      CountedKept(s, ops[0], t);
      TerminalsStep(s, ops[0], t);
      if Terminals(s'.trace, t) > 1 {
        TerminalsGrow(s', ops[1..], t);
        AnySignalFirst(ops, t);
      } else {
        MoreThanOneIff(s', ops[1..], t);
        AgainStep(s, ops, t);
      }
    }
  }

  /** Over every run: a task has more than one terminal report exactly when, after a report of its own, or after a
      Cancel that found its coroutine over, it sends another report or is cancelled. */
  lemma AtMostOneTerminalIff(ops: seq<Op>, t: string)
    requires Possible(FRESH, ops)
    ensures Terminals(Run(FRESH, ops).trace, t) <= 1 <==>
            !exists i, j :: 0 <= i < j < |ops| && Signals(ops[i], t) && Signals(ops[j], t)
                            && (ops[i] == Report(t) || Finish(t) in ops[..i])
  {
    MoreThanOneIff(FRESH, ops, t);
  }

  /** How many reports of its own a task sends in a run. */
  function OwnReports(ops: seq<Op>, t: string): nat {
    if ops == [] then 0 else (if ops[0] == Report(t) then 1 else 0) + OwnReports(ops[1..], t)
  }

  /** How many Cancels reach the task while it is there. */
  ghost function CancelsTaken(s: State, ops: seq<Op>, t: string): nat
    requires Possible(s, ops)
    decreases ops
  {
    if ops == [] then 0
    else
      (if ops[0] == Cancel(t) && Reports(s, ops[0], t) then 1 else 0) + CancelsTaken(Step(s, ops[0]), ops[1..], t)
  }

  /** The terminal reports of a task are its own and one for every Cancel that reaches it before it was removed. */
  lemma {:induction false} TerminalsCounted(s: State, ops: seq<Op>, t: string)
    requires Possible(s, ops)
    ensures Terminals(Run(s, ops).trace, t) == Terminals(s.trace, t) + OwnReports(ops, t) + CancelsTaken(s, ops, t)
    decreases ops
  {
    if ops != [] {
      TerminalsStep(s, ops[0], t);
      TerminalsCounted(Step(s, ops[0]), ops[1..], t);
    }
  }

  lemma {:induction false} NoCancelTaken(s: State, ops: seq<Op>, t: string)
    requires Possible(s, ops) && Cancel(t) !in ops
    ensures CancelsTaken(s, ops, t) == 0
    decreases ops
  {
    if ops != [] {
      NoCancelTaken(Step(s, ops[0]), ops[1..], t);
    }
  }

  /** A task that is never cancelled and whose coroutine reports what `on_assign` reports: it has none, one or two
      terminal reports, two exactly when the last normal report is sent in vain and the handler adds a Critical. */
  lemma UncancelledTerminals<T>(ops: seq<Op>, t: string, w: OnAssign.World<T>, sends: nat -> bool)
    requires Possible(FRESH, ops) && Cancel(t) !in ops
    requires OwnReports(ops, t) == OnAssign.Terminals(OnAssign.Expected(w, sends))
    ensures var n, normal := Terminals(Run(FRESH, ops).trace, t), OnAssign.Normal(w);
      && n <= 2
      && (n == 2 <==>
            && OnAssign.Starts(w) && !OnAssign.Excepts(w)
            && OnAssign.AllSent(sends, |normal| - 1) && !sends(|normal| - 1)
            && (OnAssign.Logs(w) != [] ==> sends(|normal|)))
  {
    TerminalsCounted(FRESH, ops, t);
    NoCancelTaken(FRESH, ops, t);
    OnAssign.TwoTerminalsIff(w, sends);
  }

  /** A run in which a Cancel meets the task between its Completed and the end of its coroutine: two terminal
      reports although nothing was cancelled after the task was over. */
  lemma CancelWhileUnlocking(t: string)
    ensures var ops := [Assign(t, false), Report(t), Cancel(t)];
      && Possible(FRESH, ops) && Terminals(Run(FRESH, ops).trace, t) == 2
      && Here(Run(FRESH, ops), t) == Some(Removed)
  {
    var s1 := Step(FRESH, Assign(t, false));
    var s2 := Step(s1, Report(t));
    var s3 := Step(s2, Cancel(t));
    assert Possible(s3, []) && Possible(s2, [Cancel(t)]) && Possible(s1, [Report(t), Cancel(t)]) by {
      assert [Cancel(t)][1..] == [] && [Report(t), Cancel(t)][1..] == [Cancel(t)];
    }
    assert [Assign(t, false), Report(t), Cancel(t)][1..] == [Report(t), Cancel(t)];
    TerminalsStep(FRESH, Assign(t, false), t);
    TerminalsStep(s1, Report(t), t);
    TerminalsStep(s2, Cancel(t), t);
    assert Run(s2, [Cancel(t)]) == s3 && Run(s1, [Report(t), Cancel(t)]) == s3;
  }

  // ---------------------------------------------------------------- no task is wedged

  predicate Over(s: State, t: string) {
    t in s.places && (s.places[t].Ended? || s.places[t].Removed?)
  }

  /** What a task does from where it is to end, if it meets no further breakpoint. */
  function WayOut(s: State, t: string): seq<Op>
    requires t in s.places
  {
    match s.places[t]
    case Running => [Report(t), Finish(t)]
    case Announced => if t in s.breaks then [Await(t), Resume(t, false), Wake(t), Finish(t)] else [Await(t), Finish(t)]
    case Suspended(f) => if f in s.resolved then [Wake(t), Finish(t)] else [Resume(t, false), Wake(t), Finish(t)]
    case Reported(_) => [Finish(t)]
    case _ => []
  }

  lemma OneStep(s: State, op: Op, rest: seq<Op>)
    requires Enabled(s, op) && Possible(Step(s, op), rest)
    ensures Possible(s, [op] + rest) && Run(s, [op] + rest) == Run(Step(s, op), rest)
  {
    assert ([op] + rest)[1..] == rest;
  }

  lemma FinishEnds(s: State, t: string)
    requires t in s.places && (s.places[t] == Running || s.places[t].Reported?)
    ensures Possible(s, [Finish(t)]) && Over(Run(s, [Finish(t)]), t)
  {
    assert [Finish(t)][1..] == [];
  }

  lemma WakeEnds(s: State, t: string)
    requires t in s.places && s.places[t].Suspended? && s.places[t].future in s.resolved
    ensures Possible(s, [Wake(t), Finish(t)]) && Over(Run(s, [Wake(t), Finish(t)]), t)
  {
    FinishEnds(Step(s, Wake(t)), t);
    OneStep(s, Wake(t), [Finish(t)]);
    assert [Wake(t)] + [Finish(t)] == [Wake(t), Finish(t)];
  }

  lemma ResumeEnds(s: State, t: string)
    requires Inv(s) && Pending(s, t)
    ensures Possible(s, [Resume(t, false), Wake(t), Finish(t)])
    ensures Over(Run(s, [Resume(t, false), Wake(t), Finish(t)]), t)
  {
    assert Waits(s, t, s.places[t].future);
    WakeEnds(Step(s, Resume(t, false)), t);
    OneStep(s, Resume(t, false), [Wake(t), Finish(t)]);
    assert [Resume(t, false)] + [Wake(t), Finish(t)] == [Resume(t, false), Wake(t), Finish(t)];
  }

  lemma AwaitEnds(s: State, t: string)
    requires Inv(s) && t in s.places && s.places[t] == Announced
    ensures Possible(s, WayOut(s, t)) && Over(Run(s, WayOut(s, t)), t)
  {
    var s1 := Step(s, Await(t));
    StepKeepsInv(s, Await(t));
    if t in s.breaks {
      ResumeEnds(s1, t);
      OneStep(s, Await(t), [Resume(t, false), Wake(t), Finish(t)]);
      assert [Await(t)] + [Resume(t, false), Wake(t), Finish(t)] == WayOut(s, t);
    } else {
      FinishEnds(s1, t);
      OneStep(s, Await(t), [Finish(t)]);
      assert [Await(t)] + [Finish(t)] == WayOut(s, t);
    }
  }

  /** After every run each task can still end, by its own steps or, if it waits at a breakpoint that nobody has resumed,
      by one plain Resume and its own steps; and while it runs it may meet a breakpoint. */
  lemma EveryTaskCanEnd(ops: seq<Op>, t: string)
    requires Possible(FRESH, ops) && t in Run(FRESH, ops).places
    ensures var s := Run(FRESH, ops);
      && Possible(s, WayOut(s, t)) && Over(Run(s, WayOut(s, t)), t)
      && (s.places[t] == Running ==> Enabled(s, Announce(t)))
      && (Pending(s, t) ==> !Enabled(s, Wake(t)))
  {
    var s := Run(FRESH, ops);
    RunKeepsInv(FRESH, ops);
    match s.places[t]
    case Running =>
      FinishEnds(Step(s, Report(t)), t);
      OneStep(s, Report(t), [Finish(t)]);
      assert [Report(t)] + [Finish(t)] == WayOut(s, t);
    case Announced => AwaitEnds(s, t);
    case Suspended(f) => if f in s.resolved { WakeEnds(s, t); } else { ResumeEnds(s, t); }
    case Reported(_) => FinishEnds(s, t);
    case _ =>
  }
}
