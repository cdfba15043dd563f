/** Which actor a message goes to: `managed_actors` and `managed_assignments` in `BaseAgent.process` and
    `aspawn_actor_from_assign` (rekuest_next/agents/base.py), and what that means for serial actors. */
module AgentIndex {
  import opened Prelude
  import opened KeyOrder
  import Admission

  /** The messages that look a task up. `Control` is Cancel, Pause or Resume. */
  datatype Message =
    | Init(inquiries: seq<string>) | Assign(task: string, interface: string) | Control(task: string)
    | AssignInquiry(task: string)

  /** What the agent itself reports while processing. */
  datatype Reply = StillRunning(task: string) | CriticalFor(task: string)

  /** An assignment handed to an actor: actors are numbered as they are built. */
  datatype Passed = Passed(task: string, interface: string, actor: nat)

  datatype Index = Index(actors: map<string, nat>, assignments: map<string, string>, built: nat, passed: seq<Passed>)

  const FRESH := Index(map[], map[], 0, [])

  /** An interface without a builder makes the agent report Critical and raise, changing nothing. */
  function Assigned(x: Index, builders: set<string>, task: string, interface: string): Index {
    if interface in x.actors then
      x.(assignments := x.assignments[task := interface],
         passed := x.passed + [Passed(task, interface, x.actors[interface])])
    else if interface in builders then
      Index(x.actors[interface := x.built], x.assignments[task := interface], x.built + 1,
            x.passed + [Passed(task, interface, x.built)])
    else
      x
  }

  function Processed(x: Index, builders: set<string>, m: Message): Index {
    if m.Assign? then Assigned(x, builders, m.task, m.interface) else x
  }

  /** A managed assignment's interface always has an actor, so `managed_actors[assignment.interface]` never fails;
      and whatever was passed on went to the one actor of its interface. */
  ghost predicate Inv(x: Index) {
    && (forall t :: t in x.assignments ==> x.assignments[t] in x.actors)
    && (forall i :: i in x.actors ==> x.actors[i] < x.built)
    && (forall i, j :: i in x.actors && j in x.actors && x.actors[i] == x.actors[j] ==> i == j)
    && (forall k :: 0 <= k < |x.passed| ==>
          x.passed[k].interface in x.actors && x.actors[x.passed[k].interface] == x.passed[k].actor)
  }

  class BaseAgent {
    const builders: set<string>
    var managedActors: map<string, nat>
    var managedAssignments: map<string, string>
    var built: nat
    ghost var passed: seq<Passed>

    ghost function View(): Index
      reads this
    {
      Index(managedActors, managedAssignments, built, passed)
    }

    constructor (builders: set<string>)
      ensures this.builders == builders && View() == FRESH && Inv(View())
    {
      this.builders := builders;
      managedActors, managedAssignments, built, passed := map[], map[], 0, [];
    }

    /** The answer to an inquiry: `acheck_task` of the actor that `running` says which tasks it knows. */
    function Inquire(task: string, running: set<string>): Reply
      requires Inv(View())
      reads this
    {
      if task in managedAssignments then
        var actor := managedActors[managedAssignments[task]];
        if task in running then StillRunning(task) else CriticalFor(task)
      else
        CriticalFor(task)
    }

    /** Finds or builds the interface's actor, if there is a builder for it. */
    method ProcessAssign(task: string, interface: string) returns (target: Option<nat>)
      requires Inv(View())
      modifies this
      ensures View() == Assigned(old(View()), builders, task, interface) && Inv(View())
      ensures target == if interface in managedActors then Some(managedActors[interface]) else None
    {
      if interface in managedActors {
        target := Some(managedActors[interface]);
      } else if interface in builders {
        target := Some(built);
        managedActors := managedActors[interface := built];
        built := built + 1;
      } else {
        return None;
      }
      managedAssignments := managedAssignments[task := interface];
      passed := passed + [Passed(task, interface, target.value)];
    }

    /** `target` is the actor the message was handed to. The lookups cannot fail. */
    method Process(m: Message, running: set<string>) returns (target: Option<nat>, replies: seq<Reply>, raised: bool)
      requires Inv(View())
      modifies this
      ensures View() == Processed(old(View()), builders, m) && Inv(View())
      ensures raised <==> m.Assign? && m.interface !in managedActors
      ensures m.Assign? ==> target == (if raised then None else Some(managedActors[m.interface]))
      ensures m.Control? ==>
                target == if m.task in managedAssignments then Some(managedActors[managedAssignments[m.task]]) else None
      ensures m.Assign? || m.Control? ==> replies == if target.None? then [CriticalFor(m.task)] else []
      ensures m.AssignInquiry? ==> replies == [Inquire(m.task, running)]
      ensures m.Init? ==>
                && |replies| == |m.inquiries|
                && forall k :: 0 <= k < |replies| ==> replies[k] == Inquire(m.inquiries[k], running)
    {
      target, replies, raised := None, [], false;
      match m {
        case Init(inquiries) =>
          for k := 0 to |inquiries|
            invariant |replies| == k && forall l :: 0 <= l < k ==> replies[l] == Inquire(inquiries[l], running)
          {
            replies := replies + [Inquire(inquiries[k], running)];
          }
        case Assign(task, interface) =>
          target := ProcessAssign(task, interface);
          if target.None? {
            replies, raised := [CriticalFor(task)], true;
          }
        case Control(task) =>
          if task in managedAssignments {
            target := Some(managedActors[managedAssignments[task]]);
          } else {
            replies := [CriticalFor(task)];
          }
        case AssignInquiry(task) =>
          replies := [Inquire(task, running)];
      }
    }
  }

  function Run(x: Index, builders: set<string>, ms: seq<Message>): Index
    decreases ms
  {
    if ms == [] then x else Run(Processed(x, builders, ms[0]), builders, ms[1..])
  }

  lemma ProcessedKeepsInv(x: Index, builders: set<string>, m: Message)
    requires Inv(x)
    ensures var x' := Processed(x, builders, m);
      && Inv(x')
      && (forall i :: i in x.actors ==> i in x'.actors && x'.actors[i] == x.actors[i])
      && (forall t :: t in x.assignments ==> t in x'.assignments)
  {
  }

  /** Over every message sequence the index stays consistent, and an actor once built is never replaced. */
  lemma {:induction false} RunKeepsInv(x: Index, builders: set<string>, ms: seq<Message>)
    requires Inv(x)
    ensures Inv(Run(x, builders, ms))
    ensures forall i :: i in x.actors ==>
              i in Run(x, builders, ms).actors && Run(x, builders, ms).actors[i] == x.actors[i]
    ensures forall t :: t in x.assignments ==> t in Run(x, builders, ms).assignments
    decreases ms
  {
    if ms != [] {
      ProcessedKeepsInv(x, builders, ms[0]);
      RunKeepsInv(Processed(x, builders, ms[0]), builders, ms[1..]);
    }
  }

  /** The interface of the last Assign of the task, among those whose interface has a builder. */
  function LastAssigned(builders: set<string>, ms: seq<Message>, task: string): Option<string> {
    if ms == [] then None
    else
      var m := ms[|ms| - 1];
      if m.Assign? && m.task == task && m.interface in builders then Some(m.interface)
      else LastAssigned(builders, ms[..|ms| - 1], task)
  }

  lemma {:induction false} RunAppend(x: Index, builders: set<string>, ms: seq<Message>, m: Message)
    ensures Run(x, builders, ms + [m]) == Processed(Run(x, builders, ms), builders, m)
    decreases ms
  {
    if ms == [] {
      assert [] + [m] == [m];
    } else {
      assert (ms + [m])[1..] == ms[1..] + [m];
      RunAppend(Processed(x, builders, ms[0]), builders, ms[1..], m);
    }
  }

  /** Over every message list: a task is managed exactly if some Assign of it named an interface with a builder, and
      then under the interface of the last of them; and an interface has an actor exactly if it has a builder and was
      named by some Assign. */
  lemma {:induction false} AssignedIsManaged(builders: set<string>, ms: seq<Message>)
    ensures var x := Run(FRESH, builders, ms);
      && (forall t :: t in x.assignments <==> LastAssigned(builders, ms, t).Some?)
      && (forall t :: t in x.assignments ==> LastAssigned(builders, ms, t) == Some(x.assignments[t]))
      && (forall i :: i in x.actors <==> i in builders && exists t :: Assign(t, i) in ms)
    decreases |ms|
  {
    if ms != [] {
      var front, m := ms[..|ms| - 1], ms[|ms| - 1];
      assert ms == front + [m];
      AssignedIsManaged(builders, front);
      RunAppend(FRESH, builders, front, m);
      var x := Run(FRESH, builders, front);
      assert forall t, i :: Assign(t, i) in ms <==> Assign(t, i) in front || m == Assign(t, i);
    }
  }

  /** An inquiry is answered StillRunning exactly if some Assign of the task named an interface with a builder and the
      interface's actor knows the task; anything else is Critical. */
  lemma InquiryAnswered(agent: BaseAgent, ms: seq<Message>, task: string, running: set<string>)
    requires agent.View() == Run(FRESH, agent.builders, ms) && Inv(agent.View())
    ensures agent.Inquire(task, running) ==
      if task in running && exists i :: i in agent.builders && Assign(task, i) in ms then StillRunning(task)
      else CriticalFor(task)
  {
    AssignedIsManaged(agent.builders, ms);
    LastIsSome(agent.builders, ms, task);
  }

  lemma {:induction false} LastIsSome(builders: set<string>, ms: seq<Message>, task: string)
    ensures LastAssigned(builders, ms, task).Some? <==> exists i :: i in builders && Assign(task, i) in ms
    decreases |ms|
  {
    if ms != [] {
      var front, m := ms[..|ms| - 1], ms[|ms| - 1];
      LastIsSome(builders, front, task);
      assert forall i :: Assign(task, i) in ms <==> Assign(task, i) in front || m == Assign(task, i);
    }
  }

  /** So a Cancel, Pause, Resume or inquiry after its Assign finds the actor of its interface. */
  lemma ControlReachesActor(builders: set<string>, ms: seq<Message>, task: string, interface: string,
                            later: seq<Message>)
    requires interface in builders
    requires forall m :: m in later ==> !(m.Assign? && m.task == task && m.interface in builders)
    ensures var x := Run(FRESH, builders, ms + [Assign(task, interface)] + later);
      task in x.assignments && x.assignments[task] == interface && interface in x.actors
  {
    var all := ms + [Assign(task, interface)];
    assert all[..|all| - 1] == ms;
    LastStays(builders, all, task, later);
    AssignedIsManaged(builders, all + later);
    assert Assign(task, interface) in all + later;
  }

  lemma {:induction false} LastStays(builders: set<string>, ms: seq<Message>, task: string, later: seq<Message>)
    requires forall m :: m in later ==> !(m.Assign? && m.task == task && m.interface in builders)
    ensures LastAssigned(builders, ms + later, task) == LastAssigned(builders, ms, task)
    decreases |later|
  {
    if later == [] {
      assert ms + later == ms;
    } else {
      var n := |later| - 1;
      assert (ms + later)[..|ms + later| - 1] == ms + later[..n] && (ms + later)[|ms + later| - 1] == later[n];
      LastStays(builders, ms, task, later[..n]);
    }
  }

  /** Every Assign of an interface with a builder is handed over, in order, to the interface's actor. */
  lemma {:induction false} HandedOver(builders: set<string>, ms: seq<Message>)
    ensures var x := Run(FRESH, builders, ms);
      Handed(x.passed) == Accepted(builders, ms)
    decreases |ms|
  {
    if ms != [] {
      var front, m := ms[..|ms| - 1], ms[|ms| - 1];
      assert ms == front + [m];
      HandedOver(builders, front);
      RunAppend(FRESH, builders, front, m);
      AssignedIsManaged(builders, front);
      var x, x' := Run(FRESH, builders, front), Run(FRESH, builders, ms);
      if x'.passed != x.passed {
        assert Handed(x'.passed) == Handed(x.passed) + [(m.task, m.interface)];
      }
    }
  }

  function Handed(passed: seq<Passed>): seq<(string, string)> {
    seq(|passed|, k requires 0 <= k < |passed| => (passed[k].task, passed[k].interface))
  }

  function Accepted(builders: set<string>, ms: seq<Message>): seq<(string, string)> {
    if ms == [] then []
    else
      var m := ms[|ms| - 1];
      Accepted(builders, ms[..|ms| - 1]) + if m.Assign? && m.interface in builders then [(m.task, m.interface)] else []
  }

  /** How an interface's actors are built. */
  datatype Implementation = Implementation(serial: bool, keys: seq<string>)

  /** The tasks that a run of the agent admits, each against the locks of the actor it was passed to. */
  function TasksOf(passed: seq<Passed>, impls: map<string, Implementation>, capture: set<string>): Admission.Config {
    seq(|passed|, k requires 0 <= k < |passed| =>
      var p := passed[k];
      var impl := GetOr(impls, p.interface, Implementation(true, []));
      Admission.Task(Admission.PlanFor(p.actor, impl.serial, impl.keys), p.task in capture))
  }

  lemma TasksClimb(passed: seq<Passed>, impls: map<string, Implementation>, capture: set<string>)
    requires forall i :: i in impls ==> NoRepeats(impls[i].keys)
    ensures Admission.AllClimb(TasksOf(passed, impls, capture))
  {
    forall k | 0 <= k < |passed| ensures Admission.Climbs(TasksOf(passed, impls, capture)[k].plan) {
      var impl := GetOr(impls, passed[k].interface, Implementation(true, []));
      Admission.PlanClimbsIffDistinct(passed[k].actor, impl.serial, impl.keys);
    }
  }

  lemma SerialIsInPlan(passed: seq<Passed>, impls: map<string, Implementation>, capture: set<string>, k: nat)
    requires k < |passed| && passed[k].interface in impls && impls[passed[k].interface].serial
    ensures Admission.Serial(passed[k].actor) in TasksOf(passed, impls, capture)[k].plan
  {
    assert TasksOf(passed, impls, capture)[k].plan[0] == Admission.Serial(passed[k].actor);
  }

  /** Assignments of a serial interface never overlap: whatever messages the agent processed, in any schedule of
      the tasks it admitted, two of them with the same serial interface are never both in their body. */
  lemma SerialInterfaceNeverOverlaps(builders: set<string>, ms: seq<Message>, impls: map<string, Implementation>,
                                     capture: set<string>, run: Admission.Run, k: nat, l: nat)
    requires forall i :: i in impls ==> NoRepeats(impls[i].keys)
    requires var passed := Run(FRESH, builders, ms).passed;
      && k < l < |passed| && passed[k].interface == passed[l].interface
      && passed[k].interface in impls && impls[passed[k].interface].serial
    requires var c := TasksOf(Run(FRESH, builders, ms).passed, impls, capture);
      Admission.Legal(c, Admission.Init(c), run) && Admission.Clean(run)
    ensures var c := TasksOf(Run(FRESH, builders, ms).passed, impls, capture);
      var s := Admission.End(c, Admission.Init(c), run);
      |s.pc| == |c| && !(s.pc[k].InBody? && s.pc[l].InBody?)
  {
    var passed := Run(FRESH, builders, ms).passed;
    RunKeepsInv(FRESH, builders, ms);
    TasksClimb(passed, impls, capture);
    SerialIsInPlan(passed, impls, capture, k);
    SerialIsInPlan(passed, impls, capture, l);
    Admission.SharedResourceExcludes(TasksOf(passed, impls, capture), run, k, l, Admission.Serial(passed[k].actor));
  }

  /** And neither do captures, of whatever interfaces. */
  lemma CapturesNeverOverlap(builders: set<string>, ms: seq<Message>, impls: map<string, Implementation>,
                             capture: set<string>, run: Admission.Run, k: nat, l: nat)
    requires forall i :: i in impls ==> NoRepeats(impls[i].keys)
    requires var passed := Run(FRESH, builders, ms).passed;
      k < l < |passed| && passed[k].task in capture && passed[l].task in capture
    requires var c := TasksOf(Run(FRESH, builders, ms).passed, impls, capture);
      Admission.Legal(c, Admission.Init(c), run) && Admission.Clean(run)
    ensures var c := TasksOf(Run(FRESH, builders, ms).passed, impls, capture);
      var s := Admission.End(c, Admission.Init(c), run);
      |s.pc| == |c| && !(s.pc[k].InBody? && s.pc[l].InBody?)
  {
    var passed := Run(FRESH, builders, ms).passed;
    TasksClimb(passed, impls, capture);
    Admission.CapturesExclude(TasksOf(passed, impls, capture), run, k, l);
  }
}
