# A model of the rekuest agent runtime

rekuest runs *actors* inside an *agent*: the backend sends assignments, the agent admits them under locks, the
actors report what happens, code inside an actor delegates work to other agents, and the states the agent owns are
replicated to whoever watches them. Beside this runtime stand a compiler from Python type hints to ports and match
trees, and the bloks: component trees that refer to actions and states of agents.

This project models those parts in Dafny and proves what they promise, over every run, every message order and
every input. Where the code does less than its comments say, there is an if-and-only-if statement that tells when
it does meet them, or a concrete run in which it does not.

`dafny verify dfyconfig.toml` checks everything.

## The files

| file | what it models |
|---|---|
| `TaskLocks.dfy` | one lock group: ordered acquisition, failure and cancellation while acquiring and releasing |
| `Admission.dfy` | any number of assignments going through serial locks, shared keys and the capture gate |
| `ClaimedLocks.dfy` | the keys an assignment claims against the keys it holds |
| `AgentIndex.dfy` | which actor a message reaches, and what that means for serial interfaces |
| `RemoteCall.dfy` | what a delegated call returns or raises, as a fold over its events |
| `CallerPostman.dfy`, `FeedPostman.dfy` | the two postmen, with events racing the response that names them |
| `Cancellation.dfy` | winding a delegated task down on an ideal clock |
| `ReportStream.dfy` | reports retained until acknowledged and resent on reconnect |
| `Breakpoints.dfy` | pause, resume, step and cancel of an actor's tasks |
| `OnAssign.dfy` | the reports of one assignment, whatever raises |
| `JsonPointer.dfy`, `JsonPatch.dfy` | RFC 6901 and RFC 6902, and the patches that observable states emit |
| `StalePaths.dfy` | what such a patch does when it goes anywhere but where the mutated container is |
| `Replication.dfy` | the agent's numbered patches and snapshots, and a replica that follows them |
| `ObservedState.dfy` | the evented containers with the paths and ports they store |
| `Shrinking.dfy` | what a value of a state becomes as JSON through its port |
| `LiveQueue.dfy` | queued patches whose values are still part of the state when they are processed |
| `StateSync.dfy` | mutations and the patch processor interleaved: when the agent's copy becomes the state again |
| `Ports.dfy` | types to ports, ports to match trees, dotted paths into match trees |
| `Blok.dfy`, `BlokValidation.dfy`, `BlokDependencies.dfy` | the collector of references, the validator, and their agreement |
| `BlokAccepted.dfy` | what the validator promises of a component it accepts |
| `Prelude.dfy`, `KeyOrder.dfy` | small shared datatypes; the order of lock keys |

Concurrency is modelled by steps: an asynchronous function is cut at its awaits, and any step of any other task may
come in between. What the network, the event loop, user code or the structure registry decide is a parameter or a
step that may or may not happen. A class in the source is a class here, whose methods are proved against a function
on its fields; the statements over whole runs are about that function.

## What the code does not keep

* Lock keys that are declared twice are not removed: tasks can get stuck exactly when a key of one of them repeats
  (`Admission.StuckIffRepeated`).
* A cancelled release notification skips the rest of its lock group, for ever
  (`Admission.CancelledReleaseLeaks`, `Admission.LeakIsForever`); a capture that is cancelled while it opens the gate
  leaves it shut for ever (`Admission.GateOpensIff`).
* A capture does not wait for normal tasks that are already running: it is exclusive exactly when nobody is in a body
  when it enters (`Admission.CaptureExclusiveIff`), and meets a normal task in some schedule exactly when the two
  share no serial actor and no key (`Admission.CaptureMeetsNormalIff`).
* A call over the GraphQL feed hangs when its task was only cancelled or interrupted (`RemoteCall.FeedCallHangsIff`),
  and a create notice that precedes its own call loses exactly the events before it (`FeedPostman.NothingLostIff`);
  those between the notice and the call may be overtaken (`FeedPostman.Overtaken`).
* `abreak` looks its future up again after sending Paused, so a Resume in between raises or loses a step
  (`Breakpoints.BreakSurvivesGapIff`); a task cancelled at a breakpoint leaves a future that every later Resume
  trips over (`Breakpoints.ResumeRaisesIff`).
* A task has more than one terminal report exactly when, after a report of its own, or after a Cancel that found it
  over, it sends another or is cancelled (`Breakpoints.AtMostOneTerminalIff`).
* Locks and locals are taken outside the `try` block, so an assignment can end without a terminal report
  (`OnAssign.NoTerminalIff`), and a failing last send can give it two (`OnAssign.TwoTerminalsIff`).
* A mutation of an observable state, of a container that no queued value holds, reaches the agent's copy exactly when
  three things hold (`StateSync.MutationReplicatesIff`): it publishes no negative index; it needs no value, or
  finds a port that shrinks it as the state's own port does, which setting a key of a dictionary never does
  (`StateSync.DictKeyKills`) and everything below a dictionary only by accident (`StateSync.PortlessShrinksIff`); and
  the container's stored path is where it is, which stops being so for what is deep inside a shifted list item and for
  a dataclass that was moved (`ObservedState.AfterPlacedIff`). At and below a value of a union none does
  (`StateSync.UnionNever`).
* `pop` counts from the end twice, so that an index that goes past the front by the length or less removes an item
  where a list would raise, and publishes a path that nothing is at (`JsonPatch.PopDeletesIff`,
  `JsonPatch.PopPastFront`).
* A queued patch refers to its live value, so what is mutated inside a value that is still queued arrives twice. That
  is harmless exactly when it inserts or deletes no list item and every queued patch can still be applied
  (`StateSync.MutationInsideIff`): `state.rows = []; state.rows.append(1)` leaves `[1, 1]` in the copy
  (`LiveQueue.AppendedTwice`), and replacing what an earlier queued patch goes into ends the processor
  (`LiveQueue.SetTooSoon`).
* Setting an attribute to an equal value is ignored, which loses nothing unless a union tells equal values apart
  (`StateSync.IgnoredLosesNothing`, `StateSync.UnionsTellApart`).
* A restarted agent sends its first snapshot with its old revision (`Replication.RestartAgreesIff`).
* `Optional` drops the requirements that an annotation around it gives (`Ports.OptionalIsNullableIff`).
* A dependency called `state` or `utils` takes over the paths under that name: a component fails against the
  dependencies generated for it if it has such a path, and otherwise only by its own faults
  (`BlokDependencies.OwnDependenciesIff`).

## Model

| member | source | states |
|---|---|---|
| `TaskLocks.TaskLock.Acquire` | rekuest_next/agents/lock.py:57-70 | a wait that is cancelled or a notification that fails in any way leaves the lock as it was; success means held and labelled with the task |
| `TaskLocks.TaskLock.Release` | rekuest_next/agents/lock.py:72-83 | the local lock is freed and unlabelled however the notification ends |
| `TaskLocks.NothingLeaksIff` | rekuest_next/agents/lock.py:119-129 | a release sweep leaves nothing held exactly when no notification but the very last is cancelled |
| `TaskLocks.AcquireInOrder` | rekuest_next/agents/lock.py:108-117 | acquisition stops at the first failure, holding exactly the locks before it and touching no other; a cancelled wait is reported as cancelled, a failing notification by its own kind |
| `TaskLocks.ReleaseInReverse` | rekuest_next/agents/lock.py:119-129 | releases in reverse order of acquisition; exceptions do not stop the sweep, a cancellation does, and what is then still held is known exactly |
| `TaskLocks.AcquireOrRestore` | rekuest_next/agents/lock.py:131-137 | whichever acquire or notification fails, the group holds nothing afterwards, except what a cancelled clean-up skipped |
| `TaskLocks.LockGroup.OrderMembers` | rekuest_next/agents/lock.py:93-106 | sorting the group by key neither adds nor drops a lock |
| `TaskLocks.LockGroup.Enter` | rekuest_next/agents/lock.py:131-137 | on entry either every lock of the group is held by its task, or none is, up to a cancelled clean-up, which is then what is raised |
| `TaskLocks.LockGroup.Exit` | rekuest_next/agents/lock.py:139-146 | on exit the locks are released in reverse order, all of them unless a release is cancelled, even if any subset of notifications raises |
| `TaskLocks.RepeatedLockNeverGranted` | rekuest_next/agents/lock.py:108-117 | a group in which a lock is listed twice never gets past the second one |
| `KeyOrder.SortedDistinctClimbs` | rekuest_next/agents/lock.py:108-114 | sorting distinct keys gives a strictly climbing order, whatever the order they were declared in |
| `Admission.PlanClimbsIffDistinct` | rekuest_next/actors/base.py:111-121 | serial lock first, then sorted keys: the plan climbs in rank if and only if no key repeats |
| `Admission.PlanHas` | rekuest_next/actors/base.py:111-121 | a plan is the serial lock of the task's own actor, if that is serial, and then each declared key as often as it is declared |
| `Admission.EveryAwaitMayFail` | rekuest_next/agents/lock.py:57-83 | every await of an unfinished task may be the one that is cancelled or fails, wherever in its plan it stands |
| `Admission.StepKeepsInv` | rekuest_next/actors/base.py:92-124 | every step of any task, failures and cancelled waits included, keeps: each lock has at most one holder, which is the task that took it, labels name holders, the gate names its capture task |
| `Admission.WaitsClimb` | rekuest_next/agents/lock.py:8-28 | whoever holds what a task waits for can itself only wait for something of higher rank |
| `Admission.NoWaitCycle` | rekuest_next/agents/lock.py:8-28 | no chain of waiting tasks, of any length, closes into a cycle |
| `Admission.FindRunnable` | rekuest_next/agents/lock.py:8-28 | following the waits from any unfinished task ends in a task that can go on without any failure |
| `Admission.EveryScheduleEnds` | rekuest_next/actors/functional.py:62-107 | every schedule of any number of tasks is finite, whatever fails: its length is bounded by the remaining steps at its start |
| `Admission.CleanRunKeepsInv` | rekuest_next/actors/base.py:111-124 | the invariant holds after every run without a cancelled release |
| `Admission.LabelNamesHolder` | rekuest_next/agents/lock.py:57-83 | a lock's `locking_task`, when it is set, names the task that holds it |
| `Admission.FinishedMeansFree` | rekuest_next/agents/lock.py:119-129 | when every task is finished, every serial lock, every key and the capture gate are free |
| `Admission.MaximalRunFinishes` | rekuest_next/agents/lock.py:8-28 | a run that cannot go on without a failure has finished every task and freed everything |
| `Admission.NeverStuck` | rekuest_next/agents/lock.py:8-28 | with distinct keys per task no run gets stuck, whatever other failures it meets |
| `Admission.HoldersExclude` | rekuest_next/agents/lock.py:57-70 | what one task holds no other task holds |
| `Admission.BodiesExclude` | rekuest_next/actors/debug.py:42-52 | two tasks in their bodies share no serial actor and no key, and are not both captures |
| `Admission.SharedResourceExcludes` | rekuest_next/actors/base.py:111-121 | in every schedule, tasks that share a serial actor or a key are never in their bodies together |
| `Admission.CapturesExclude` | rekuest_next/actors/debug.py:42-52 | in every schedule two captures are never in their bodies together |
| `Admission.NobodyEntersDuringCapture` | rekuest_next/actors/debug.py:107-117 | from the moment a capture starts until it leaves, nobody enters a body |
| `Admission.CaptureExclusiveIff` | rekuest_next/actors/debug.py:42-52 | a capture has its body to itself, whatever happens until it leaves, if and only if no other task is in its body when it enters |
| `Admission.CaptureMeetsNormalIff` | rekuest_next/actors/debug.py:42-52 | a capture and a normal task are in their bodies together in some schedule if and only if they share no serial actor and no key |
| `Admission.GateOpensIff` | rekuest_next/actors/debug.py:101-105 | after a capture leaves its body the gate can ever be open again exactly if that leave was not cancelled |
| `Admission.AbandonedGateStaysShut` | rekuest_next/actors/debug.py:101-105 | once a capture was cancelled while opening the gate, nobody enters a body in any continuation |
| `Admission.CancelledReleaseLeaks` | rekuest_next/agents/lock.py:119-129 | a cancelled release leaks exactly the keys the sweep had not reached: none if and only if it was the last one |
| `Admission.LeakIsForever` | rekuest_next/agents/lock.py:119-129 | a leaked key stays locked in every continuation, and no task that needs it reaches the gate or its body |
| `Admission.StuckIffRepeated` | rekuest_next/agents/base.py:390-398 | any number of tasks can get stuck, without a cancelled release, if and only if some key of some task repeats |
| `ClaimedLocks.LockContextManager.Enter` | rekuest_next/state/lock.py:12-13 | entering claims exactly the block's keys and remembers the previous claim |
| `ClaimedLocks.LockContextManager.Exit` | rekuest_next/state/lock.py:15-22 | leaving restores the remembered claim |
| `ClaimedLocks.RunBlock` | rekuest_next/state/lock.py:7-27 | however deeply blocks are nested, each sees its own keys, also after every inner block, and the claim is restored |
| `ClaimedLocks.ClaimsAre` | rekuest_next/state/lock.py:7-27 | what is claimed while a block runs begins with its own keys, has what each inner block claims in its turn, and right after each the block's own keys again |
| `ClaimedLocks.PlainBlock` | rekuest_next/state/lock.py:12-22 | a block without inner blocks claims its keys once |
| `ClaimedLocks.AppRegistry.RegisterAtInterface` | rekuest_next/app.py:87-95 | an interface is set or replaced, and actors keep the keys their implementation declares |
| `ClaimedLocks.AppRegistry.GetLocks` | rekuest_next/app.py:105-119 | one lock for every key that some implementation declares, and none twice |
| `ClaimedLocks.DeclaredIff` | rekuest_next/app.py:105-119 | what an implementation declares is every key it lists, and nothing if it has no list |
| `ClaimedLocks.LockTable.Collect` | rekuest_next/agents/base.py:421-424 | every collected key has a lock of that key, and existing locks keep their identity |
| `ClaimedLocks.LockTable.KnownKeysKept` | rekuest_next/agents/base.py:390-398 | the locks of known keys are looked up in order and as often as the keys are declared |
| `ClaimedLocks.LockTable.HeldKeysAre` | rekuest_next/agents/base.py:390-398 | the locks looked up for an actor are exactly those of its declared keys that the table knows |
| `ClaimedLocks.LockTable.ClaimedIsHeldIffCovered` | rekuest_next/agents/base.py:390-398 | every claimed key has a looked-up lock if and only if the table covers the actor's keys |
| `ClaimedLocks.GroupKeys` | rekuest_next/actors/base.py:115-120 | a lock group over the looked-up locks holds, once it has acquired them, exactly the claimed keys, if and only if the table knows them all |
| `ClaimedLocks.EnterSyncContext` | rekuest_next/actors/base.py:111-124 | after the lock group is entered, the body claims exactly the keys of the locks that the group holds, if and only if the table knows the actor's keys; a failed entry claims nothing |
| `ClaimedLocks.CollectFromExtensions` | rekuest_next/agents/base.py:400-424 | after collecting, every registered actor claims exactly what its group holds |
| `ClaimedLocks.RegisteredTooLate` | rekuest_next/agents/base.py:400-424 | an actor registered after the table was collected claims a key that nobody holds |
| `AgentIndex.BaseAgent.ProcessAssign` | rekuest_next/agents/base.py:967-990 | an interface's actor is found, or built once if there is a builder; otherwise nothing changes |
| `AgentIndex.BaseAgent.Process` | rekuest_next/agents/base.py:492-634 | which actor each message reaches and what the agent replies itself; no lookup of a managed assignment's actor can fail |
| `AgentIndex.RunKeepsInv` | rekuest_next/agents/base.py:542-573 | over every message sequence each interface has at most one actor, which is never replaced, and every managed assignment's interface has one |
| `AgentIndex.AssignedIsManaged` | rekuest_next/agents/base.py:542-560 | over every message list a task is managed exactly if some Assign of it named an interface with a builder, and then under the interface of the last of them; an interface has an actor exactly if it has a builder and was assigned |
| `AgentIndex.ControlReachesActor` | rekuest_next/agents/base.py:562-573 | a Cancel, Pause, Resume or inquiry that comes after the Assign of its task finds the actor of the interface that was named |
| `AgentIndex.HandedOver` | rekuest_next/agents/base.py:542-560 | every Assign of an interface with a builder is handed over, in order, and nothing else is |
| `AgentIndex.InquiryAnswered` | rekuest_next/agents/base.py:607-634 | an inquiry is answered as running exactly if its task was assigned to an interface with a builder and the actor knows it; otherwise Critical |
| `AgentIndex.SerialInterfaceNeverOverlaps` | rekuest_next/actors/base.py:111-113 | whatever messages were processed, in every schedule two assignments of one serial interface are never both in their bodies |
| `AgentIndex.CapturesNeverOverlap` | rekuest_next/actors/debug.py:42-52 | whatever messages were processed, in every schedule two capturing assignments are never both in their bodies |
| `RemoteCall.LastYieldIs` | rekuest_next/remote.py:280-298 | the payload that `acall_raw` keeps is that of the last yield, and absent exactly if there was none |
| `RemoteCall.AcallRaw` | rekuest_next/remote.py:182-298 | the nested generators compute the meaning of the event list and read no event past the first terminal |
| `RemoteCall.MeaningAt` | rekuest_next/remote.py:194-209 | the first terminal decides: last yield payload on Completed, recoverable error on Failed, critical on Critical, Cancelled and Interrupted |
| `RemoteCall.CallGives` | rekuest_next/remote.py:194-209 | the caller gets the payload of the last yield before Completed, or nothing if there was none, and the error of Failed or Critical; Cancelled and Interrupted raise critically with a fixed text |
| `RemoteCall.FeedCallGives` | rekuest_next/remote.py:254-298 | the same over the change feed, with the three kinds that end a call there |
| `RemoteCall.CallWaitsIff` | rekuest_next/remote.py:194-209 | a call waits exactly as long as no event has come that ends it |
| `RemoteCall.NothingReadPastTerminal` | rekuest_next/agents/caller.py:190-196 | whatever arrives after the first terminal changes nothing |
| `RemoteCall.AcallRawOverFeed` | rekuest_next/remote.py:182-298 | the same fold over the GraphQL feed, which stops only at Completed, Failed and Critical |
| `RemoteCall.FeedPrefixDecides` | rekuest_next/remote.py:194-209 | once the stream has stopped, later events change nothing |
| `RemoteCall.PostmenAgree` | rekuest_next/agents/caller.py:71-91 | both postmen give a call the same meaning unless its first terminal is Cancelled or Interrupted |
| `RemoteCall.FeedCallHangsIff` | rekuest_next/remote.py:194-209 | a call over GraphQL waits for ever on an ended task exactly when its only terminals are Cancelled or Interrupted |
| `CallerPostman.AgentPostman.DrainOrphans` | rekuest_next/agents/caller.py:230-238 | orphans are appended to the task's queue in order and forgotten |
| `CallerPostman.AgentPostman.HandleAssignResponse` | rekuest_next/agents/caller.py:310-320 | a successful response drains the orphans of its task; only an unresolved future is resolved |
| `CallerPostman.AgentPostman.HandleExecutionEvent` | rekuest_next/agents/caller.py:328-344 | an event goes to the end of its task's queue or, without one, of its orphans; an old sequence number is noticed |
| `CallerPostman.AgentPostman.RegisterTask` | rekuest_next/agents/caller.py:230-238 | the reference is recorded and the orphans drained |
| `CallerPostman.AgentPostman.NextEvent` | rekuest_next/agents/caller.py:187-196 | the oldest queued event is taken |
| `CallerPostman.AgentPostman.Close` | rekuest_next/agents/caller.py:222-228 | whatever belongs to the call is dropped, nothing else |
| `CallerPostman.StepKeepsInv` | rekuest_next/agents/caller.py:152-346 | every step of any call, response or event keeps conservation for every task, with one live call per task id at a time |
| `CallerPostman.EveryRunConserves` | rekuest_next/agents/caller.py:187-196 | in every interleaving, taken ++ queued ++ orphaned are exactly the events received for a live call's task since the last call on it was closed, in order, and a queue and orphans never coexist; task ids may be used again |
| `CallerPostman.CallMeansItsFeed` | rekuest_next/agents/caller.py:187-196 | a call that ran to its end means what all the events received for its task from its start on mean, however they raced |
| `CallerPostman.TerminalReachesCall` | rekuest_next/agents/caller.py:187-196 | once its terminal has been received a streaming call that has not finished always has a next event to take |
| `CallerPostman.EventReachesCall` | rekuest_next/agents/caller.py:328-344 | whenever an event of its task comes, a streaming call that has not finished has a next event to take |
| `CallerPostman.AnswerWakes` | rekuest_next/agents/caller.py:310-320 | a response ends the wait of its call: it fails with nothing kept, or streams with every event since the last call on the task was closed in its queue |
| `CallerPostman.EveryRunNotes` | rekuest_next/agents/caller.py:176-234 | over every run: a request is pending exactly while it lives; an event is noticed as out of order exactly if the last event of its task since the last close has its number or a higher one; every recorded reference is that of a streaming call, and a streaming call whose reference is its own has it recorded |
| `CallerPostman.FirstAnswerStays` | rekuest_next/agents/caller.py:318-320 | over every run a request keeps its first response until it ends, whatever else answers it |
| `CallerPostman.NothingKept` | rekuest_next/agents/caller.py:222-228 | when a streaming call ends, after its terminal or before, nothing is kept of its task, request and reference, and the queues and orphans of every other task stay |
| `FeedPostman.GraphQLPostman.OpenQueue` | rekuest_next/postmans/graphql.py:77-96 | a call needs a reference and starts with an empty queue |
| `FeedPostman.GraphQLPostman.Bind` | rekuest_next/postmans/graphql.py:63-75 | both directions are recorded and the task's orphans go to the reference's queue in order, if it has one |
| `FeedPostman.GraphQLPostman.Watch` | rekuest_next/postmans/graphql.py:219-250 | one change binds first and routes then; without a queue the event becomes an orphan |
| `FeedPostman.GraphQLPostman.NextEvent` | rekuest_next/postmans/graphql.py:97-131 | the oldest queued event is taken |
| `FeedPostman.GraphQLPostman.CleanupReference` | rekuest_next/postmans/graphql.py:133-139 | everything of the reference and its task is dropped, nothing else |
| `FeedPostman.NothingLostIff` | rekuest_next/postmans/graphql.py:63-75 | over every run, wherever the call begins, nothing of its task's feed is lost exactly if no event precedes a notice that precedes the call |
| `FeedPostman.Overtaken` | rekuest_next/postmans/graphql.py:229-246 | a run in which an event between notice and call is handed over after a later one |
| `FeedPostman.InversesIffOneToOne` | rekuest_next/postmans/graphql.py:63-75 | throughout any list of notices the two dictionaries are mutual inverses exactly when the backend pairs tasks and references one to one |
| `FeedPostman.StepKeepsInv` | rekuest_next/postmans/graphql.py:63-139 | every step keeps conservation for every reference and the dictionaries inverse |
| `FeedPostman.EveryRunConserves` | rekuest_next/postmans/graphql.py:97-114 | whichever of notice, reply and events comes first, delivered ++ queued ++ orphaned is the feed of a live call's task, in order; the dictionaries stay mutual inverses |
| `FeedPostman.FirstEventArrives` | rekuest_next/postmans/graphql.py:77-131 | a call with a fresh reference is handed the event of its task whether the event or the notice comes first |
| `FeedPostman.NothingLeft` | rekuest_next/postmans/graphql.py:133-139 | closing a call drops its queue and its reference, and what was bound or orphaned under its task if a notice had named it; other calls keep what they have |
| `FeedPostman.CallMeansItsFeed` | rekuest_next/postmans/graphql.py:97-131 | a call that has stopped means what the whole feed of its task means |
| `Cancellation.AwaitWanted` | rekuest_next/agents/caller.py:284-306 | the drain ends by its deadline whatever arrives, finds a wanted event if and only if one arrives in time, ends when the first such one arrives, and takes nothing after it |
| `Cancellation.ConfirmCancellation` | rekuest_next/agents/caller.py:240-266 | the controls are Cancel, then Interrupt only if asked for and unconfirmed; when each of the two waits ends; at most two timeouts plus the sends |
| `Cancellation.ConfirmedIff` | rekuest_next/agents/caller.py:255-257 | the first wait is confirmed by a Cancelled that arrives in time and by nothing else |
| `Cancellation.EscalatedEnds` | rekuest_next/agents/caller.py:262-266 | after an Interrupt the second wait ends early exactly if a Cancelled or an Interrupted arrives in it, and no later than the first such event |
| `Cancellation.SendsAreBounded` | rekuest_next/postmans/graphql.py:173-193 | a send takes its own time or the timeout, whichever is less |
| `Cancellation.ConfirmOverGraphQL` | rekuest_next/postmans/graphql.py:141-217 | the same with bounded sends: at most four timeouts |
| `ReportStream.AgentStream.Dispatch` | rekuest_next/agents/base.py:721-735 | events are numbered, terminal ones retained, before the transport is asked, which may raise |
| `ReportStream.AgentStream.EventAck` | rekuest_next/agents/base.py:636-638 | an acknowledged report is no longer retained |
| `ReportStream.AgentStream.OnInit` | rekuest_next/agents/base.py:510-510 | an Init takes a copy of what is retained, which stays retained |
| `ReportStream.AgentStream.ResendNext` | rekuest_next/agents/base.py:510-511 | one turn of the loop sends the oldest of the copy; a send that raises ends the loop |
| `ReportStream.RetainedExactly` | rekuest_next/agents/base.py:721-735 | after every history the retained reports are exactly the terminal ones dispatched and not acknowledged since, in dispatch order |
| `ReportStream.RetainedKinds` | rekuest_next/agents/base.py:71-77 | exactly the five kinds of report that end a task are retained, at the end, with the next number |
| `ReportStream.PutKeepsPlace` | rekuest_next/agents/base.py:733-734 | a report that is retained already is replaced where it is |
| `ReportStream.WireIsAcceptedAndResent` | rekuest_next/agents/base.py:721-735 | over every history the wire carries the accepted reports with their numbers, in dispatch order and once, and besides them only what was sent again |
| `ReportStream.FirstNumbersClimb` | rekuest_next/agents/base.py:721-735 | the events that reach the wire for the first time carry ever higher numbers |
| `ReportStream.WireCarriesNumbered` | rekuest_next/agents/base.py:501-511 | resending neither renumbers nor invents: whatever is on the wire is a dispatched report with its first number |
| `ReportStream.RunNumbersEvents` | rekuest_next/agents/base.py:721-735 | in every run the events dispatched are numbered on from the stream's counter without gaps, taken by the transport or not |
| `ReportStream.ReconnectResendsUnacked` | rekuest_next/agents/base.py:501-511 | a reconnect after any history sends every terminal report that was never acknowledged again, in order and unchanged, whatever is dispatched and acknowledged between the sends, and goes on retaining them |
| `ReportStream.FailedResendEnds` | rekuest_next/agents/base.py:510-511 | a send that raises ends the loop: until the next Init nothing is sent again, and what is retained stays |
| `Breakpoints.Actor.OnPause` | rekuest_next/actors/base.py:168-188 | a break future is made unless there is one |
| `Breakpoints.Actor.OnResume` | rekuest_next/actors/base.py:126-153 | the break future is resolved and removed, or replaced when stepping; a finished one makes it raise and changes nothing |
| `Breakpoints.Actor.ProcessAssign` | rekuest_next/actors/base.py:311-324 | a stepped assignment starts with a break future, any other without |
| `Breakpoints.Actor.ProcessCancel` | rekuest_next/actors/base.py:328-358 | a running task is cancelled, forgotten and reported; a finished one is only reported; the future it waits on is cancelled and stays |
| `Breakpoints.Actor.Break` | rekuest_next/actors/base.py:244-255 | with a break future Paused is sent; without one nothing happens |
| `Breakpoints.Actor.AwaitBreak` | rekuest_next/actors/base.py:256-256 | the map is read a second time, which may fail |
| `Breakpoints.Actor.LeaveBreak` | rekuest_next/actors/base.py:257-263 | a resolved future lets the task go on and report Resumed |
| `Breakpoints.RunKeepsInv` | rekuest_next/actors/base.py:126-188 | in every run tasks share no future, a stored future never has a result, and a suspended task waits on its stored future or on a resolved one |
| `Breakpoints.ResumeRaisesIff` | rekuest_next/actors/base.py:328-343 | a Resume meets a finished future if and only if its task was cancelled while it waited at a breakpoint; then every later one does |
| `Breakpoints.PausedAndResumedAlternate` | rekuest_next/actors/base.py:244-263 | in every run each Paused of a task is answered by one Resumed, or by `abreak` raising, before its next |
| `Breakpoints.BreakSurvivesGapIff` | rekuest_next/actors/base.py:248-256 | between Paused and the second look, the break waits on the future it announced exactly if the task was not resumed; exactly when it raises KeyError; otherwise the Resume is lost |
| `Breakpoints.StepStopsAtNextBreak` | rekuest_next/actors/base.py:140-147 | a suspended task resumed by a step passes this breakpoint and stops at the very next one, until it is resumed again, whatever else happens |
| `Breakpoints.SteppedAssignStops` | rekuest_next/actors/base.py:311-324 | a task assigned by a step shows one Paused at its first breakpoint and cannot go on until it is resumed, whatever else happens |
| `Breakpoints.PlainAssignRunsThrough` | rekuest_next/actors/base.py:244-255 | a task that is neither assigned by a step nor paused shows nothing at its breakpoints, over every run of the actor |
| `Breakpoints.PauseStops` | rekuest_next/actors/base.py:168-188 | a paused task shows one Paused at its next breakpoint and cannot go on until it is resumed |
| `Breakpoints.PlainResumeRunsThrough` | rekuest_next/actors/base.py:140-149 | resumed without a step it passes every breakpoint until it is paused again |
| `Breakpoints.EveryTaskCanEnd` | rekuest_next/actors/base.py:126-263 | after every run each task can still end by its own steps, or by one plain Resume and its own steps if it waits at a breakpoint that nobody resumed |
| `Breakpoints.TerminalsCounted` | rekuest_next/actors/base.py:328-352 | the terminal reports of a task are its own, and one for every Cancel that reaches it before it is removed |
| `Breakpoints.AtMostOneTerminalIff` | rekuest_next/actors/base.py:328-352 | over every run, at most one terminal report exactly when no report or Cancel of the task follows a report of its own, or a Cancel after its coroutine was over |
| `Breakpoints.UncancelledTerminals` | rekuest_next/actors/functional.py:137-154 | a task that is never cancelled has at most two terminal reports, and two exactly when its last normal report is sent in vain and the handler adds a Critical |
| `Breakpoints.CancelWhileUnlocking` | rekuest_next/actors/base.py:331-343 | a run in which a Cancel meets the task between its Completed and the end of its coroutine: two terminal reports |
| `OnAssign.FlushCapturedLogs` | rekuest_next/actors/functional.py:94-102 | captured output is sent as one log, if there is any and capture was asked for |
| `OnAssign.JoinAppends` | rekuest_next/actors/functional.py:94-102 | what was captured in two stretches is sent as the one text and then the other |
| `OnAssign.LoggedIff` | rekuest_next/actors/functional.py:94-102 | captured output is reported exactly if there is any, capturing was asked for, and the callable was called and no result of it rejected |
| `OnAssign.YieldResults` | rekuest_next/actors/functional.py:106-140 | the loop reports the shrunk results in order up to the first rejection, exception or failing send |
| `OnAssign.TryBody` | rekuest_next/actors/functional.py:106-145 | the try block reports a prefix of the normal trace, whole exactly if nothing raises |
| `OnAssign.OnAssign` | rekuest_next/actors/functional.py:42-154 | whatever raises: a failing send cuts the normal trace after that report, and the handler, if it catches it, adds its log and a Critical |
| `OnAssign.ReportGrammar` | rekuest_next/actors/functional.py:54-154 | progress, every result in order, at most one log, exactly one terminal report, last; and which one |
| `OnAssign.AfterFailure` | rekuest_next/actors/functional.py:104-154 | after a failing send nothing is reported, unless the callable was called and what failed is a result, a Completed, the Failed of a rejected result, or a log that no exception had asked for; then the log, if any, and a Critical if that log is sent |
| `OnAssign.NoTerminalIff` | rekuest_next/actors/functional.py:62-83 | no terminal report exactly when the locks raise, or the inputs expand and `aget_locals` raises |
| `OnAssign.TwoTerminalsIff` | rekuest_next/actors/functional.py:143-154 | never more than two terminal reports, and two exactly when the last normal send raises and the handler's log does not |
| `JsonPointer.EscapeRoundTrip` | rekuest_next/state/observable.py:15-22 | unescaping an escaped key gives the key back, for every key |
| `JsonPointer.EscapeIsCharwise` | rekuest_next/state/observable.py:15-22 | escaping goes character by character: a tilde becomes ~0, a slash ~1, and anything else stays |
| `JsonPointer.MakePathParses` | rekuest_next/state/observable.py:25-31 | a path made from a base and a key parses to the base's tokens and then that key |
| `JsonPointer.IndexPathParses` | rekuest_next/state/observable.py:25-31 | the same for an index |
| `JsonPointer.IndexRoundTrip` | rekuest_next/state/observable.py:25-31 | an index written into a path is read back |
| `JsonPatch.EmittedPathParses` | rekuest_next/state/observable.py:98-230 | the path of a published patch names the mutated container and then the mutated place |
| `JsonPatch.FromTheEnd` | rekuest_next/state/observable.py:311-478 | a negative index within the length counts from the end, for popping, deleting and setting; only `pop` publishes the place it means |
| `JsonPatch.FromTheStart` | rekuest_next/state/observable.py:311-478 | an index from the start means the item of that number and is published as it is |
| `JsonPatch.OutOfRange` | rekuest_next/state/observable.py:311-478 | anything else raises, but for `pop` up to twice the length from the end |
| `JsonPatch.PopDeletesIff` | rekuest_next/state/observable.py:448-478 | `pop` does what deleting the item does exactly if its index does not count past the front by the length or less |
| `JsonPatch.PopPastFront` | rekuest_next/state/observable.py:448-478 | if it does, the item that a second count from the end names is removed although a list would raise, and the patch cannot be applied |
| `JsonPatch.InsertsBefore` | rekuest_next/state/observable.py:390-437 | `insert` goes before the item that its index means, at the front for what is too low and at the end for what is too high, and publishes that place; `append` goes to the end |
| `JsonPatch.OneKeyOnly` | rekuest_next/state/observable.py:129-166 | a key is set or deleted alone; a new key is published as added, a known one as replaced, and deleting an unknown one raises |
| `JsonPatch.EmittedHere` | rekuest_next/state/observable.py:628-664 | on the mutated container itself the published operation has the effect of the mutation, or, for an index published negative or an attribute it did not have, cannot be applied |
| `JsonPatch.EmittedPatchMeansMutation` | rekuest_next/state/observable.py:258-520 | for a container that is where its stored path says, applying a published patch to the whole document does what the mutation did to the container, or, for an index published negative or a new attribute, cannot be done at all |
| `StalePaths.ElsewhereDiffers` | rekuest_next/state/observable.py:292-305 | a patch applied at any other place of the document never gives what the mutation gives |
| `StalePaths.PatchMeansMutationIff` | rekuest_next/state/observable.py:258-520 | a published patch does to the document what a mutation that changes something did to the container, if and only if it is published properly and the stored path is where the container is |
| `LiveQueue.AppendedTwice` | rekuest_next/agents/base.py:296-318 | assigning an empty list and appending to it before the patch is processed gives the copy the item twice |
| `LiveQueue.SetTooSoon` | rekuest_next/agents/base.py:296-318 | replacing a member of a queued value into which a queued patch goes: that patch cannot be applied |
| `LiveQueue.OutsideIff` | rekuest_next/agents/base.py:307-322 | a mutation outside the queued values keeps the queue leading to the document exactly if it is published properly |
| `LiveQueue.InsideIff` | rekuest_next/agents/base.py:307-322 | after a mutation inside a queued value the queue leads to the document exactly if no list item was inserted or deleted and every queued patch can still be applied |
| `LiveQueue.JustQueuedIff` | rekuest_next/agents/base.py:307-322 | inside the value queued last, exactly setting a key, an attribute or an item by an index that is not negative is harmless |
| `Shrinking.ShrunkAt` | rekuest_next/structures/serialization/actor.py:597-796 | at every place to which no union leads, the shrunk state holds what the node there shrinks to through its own port |
| `Shrinking.ScalarsShrink` | rekuest_next/structures/serialization/actor.py:798-930 | what each kind of port makes of each value that is no container, and which it refuses |
| `Shrinking.NoneShrinksIff` | rekuest_next/structures/serialization/actor.py:620-631 | None goes through a nullable port of any kind and through no other |
| `Shrinking.ContainersShrink` | rekuest_next/structures/serialization/actor.py:633-796 | a list keeps its length and a dictionary its keys, a dataclass has a member for each child of its port and its identifier, and a union the number of its variant and the value |
| `Shrinking.EmptyShrinksIff` | rekuest_next/structures/serialization/actor.py:666-770 | what an empty list, an empty dictionary and a dataclass without attributes need of their port |
| `Shrinking.TakenScalar` | rekuest_next/structures/serialization/predication.py:60-86 | a variant without children never raises, and takes what shrinks through it but for None, a whole number as a float and anything but a bool as a bool |
| `Shrinking.TakenShrinks` | rekuest_next/structures/serialization/predication.py:28-59 | a variant of lists and dictionaries down to such ones never raises, and what it takes can be shrunk through it |
| `Shrinking.TakenIffShrinks` | rekuest_next/structures/serialization/predication.py:28-86 | a variant without floats, bools and nullable parts takes precisely the values that can be shrunk through it, at any depth |
| `Shrinking.OtherVariants` | rekuest_next/structures/serialization/predication.py:28-88 | a model variant takes the values of its class; a union as a variant raises, and inside a list or dictionary variant does so exactly if there is an item |
| `Shrinking.ChosenIff` | rekuest_next/structures/serialization/actor.py:643-657 | a union uses the first variant that takes the value, provided that none before it raises |
| `Shrinking.PutShrinks` | rekuest_next/structures/serialization/actor.py:597-796 | a state with another container at a place can be shrunk exactly if that one can, and differs there only |
| `Shrinking.WrapShrinks` | rekuest_next/state/observable.py:567-664 | wrapping a value changes neither whether it can be shrunk nor what to |
| `Shrinking.AfterShrinks` | rekuest_next/state/observable.py:98-520 | a change does to the shrunk container what Python's mutation does, if its value can be shrunk; an attribute without a port does nothing to it |
| `ObservedState.WrapPlacesIff` | rekuest_next/state/observable.py:567-624 | a wrapped value has all its containers at their stored paths exactly if none is a dataclass evented before at another place |
| `ObservedState.StartsPlaced` | rekuest_next/state/observable.py:567-660 | a state wrapped for the first time has all its containers at their stored paths |
| `ObservedState.ItemsAfter` | rekuest_next/state/observable.py:311-478 | what Python's indices, negative ones too, mean for the items of an observed list: which item goes, comes or is replaced, and that the others keep their order |
| `ObservedState.AppliesIff` | rekuest_next/state/observable.py:98-478 | which changes a container takes, and which indices and keys it refuses |
| `ObservedState.PathsAfterRemoval` | rekuest_next/state/observable.py:292-305 | a deletion renews the stored paths of the items behind it; counted from the end it renews those of all items, and of none if the first one went |
| `ObservedState.PathsAfterInsertion` | rekuest_next/state/observable.py:413-437 | an insertion renews the stored paths of the items it shifts, and no others |
| `ObservedState.ShiftedPlacedIff` | rekuest_next/state/observable.py:292-305 | a shifted list item whose own path is repaired is still in place with all it holds exactly if it holds no further container |
| `ObservedState.AfterPlacedIff` | rekuest_next/state/observable.py:363-478 | stored paths are where the containers are after a change, by no index that is published negative, exactly if a new value brings no dataclass evented elsewhere and no shifted item holds a further container |
| `ObservedState.ChildPortIff` | rekuest_next/state/observable.py:54-68 | below a compiled port a child port is found exactly for a field of a model, any item of a list, a variant's index; of a dictionary only for "..." |
| `Replication.StateAgent.InitStates` | rekuest_next/agents/base.py:763-807 | the first snapshot is sent if and only if the startup hooks gave a value to exactly the registered states |
| `Replication.StateAgent.ProcessPatchEvent` | rekuest_next/agents/base.py:307-350 | one queued patch: applied, numbered, checkpointed and sent, or the processor dies |
| `Replication.SurvivesIff` | rekuest_next/agents/base.py:278-350 | the processor survives a queue exactly if every patch in it, in turn, can be applied to the states, which then are what the patches make of them, each numbered; an interval of zero it never survives |
| `Replication.DeathIsFinal` | rekuest_next/agents/base.py:278-322 | once it has died nothing is applied, numbered or sent any more |
| `Replication.ReplicasAgree` | rekuest_next/agents/base.py:307-350 | revisions 1, 2, 3, ... without gaps; snapshots exactly at multiples of the interval, with their own patch included; a replica from any snapshot equals the agent's states |
| `StateSync.MutationReplicatesIff` | rekuest_next/agents/base.py:307-381 | a mutation outside the queued values, to which no union leads and which changes what the state shrinks to, reaches the agent's copy if and only if it publishes no negative index, needs no value or finds a port that shrinks it as the state's own port does, and the container's stored path is where it is |
| `StateSync.MutationInsideIff` | rekuest_next/agents/base.py:307-381 | a well queued change inside a value that is still queued reaches the copy exactly if it inserts or deletes no list item and every queued patch can still be applied |
| `StateSync.MutationOfLastIff` | rekuest_next/agents/base.py:307-381 | inside the value queued last, exactly if it sets a key, an attribute, or an item by an index that is not negative |
| `StateSync.SoundRunReplicates` | rekuest_next/agents/base.py:278-381 | over every interleaving of sound changes with the patch processor the processor never dies, processing the queue makes the copy the state, an empty queue means that it is, and replicas agree with the agent |
| `StateSync.ProcessingDrains` | rekuest_next/agents/base.py:278-294 | processing the queue turn by turn leaves an empty queue, the state as it was, and the agent that the statements about a drained queue speak of |
| `StateSync.StartsInPlace` | rekuest_next/state/decorator.py:89-93 | a state wrapped for the first time, with the agent that shrank it, is where such runs begin |
| `StateSync.FoundIsOwnIff` | rekuest_next/state/observable.py:54-68 | a container that stores its own port finds the right port for a value exactly if the value is not set under a key of a dictionary |
| `StateSync.DictKeyKills` | rekuest_next/agents/base.py:352-362 | setting a key of a dictionary of a state ends the patch processor |
| `StateSync.PortlessBelowDict` | rekuest_next/state/observable.py:576-590 | what a dictionary holds is wrapped without a port, down through lists |
| `StateSync.PortlessShrinksIff` | rekuest_next/state/observable.py:54-68 | a container without a port has a value shrunk exactly if it is put under a name that the state itself has a port for, and the first such port takes the value |
| `StateSync.UnionNever` | rekuest_next/structures/serialization/actor.py:633-657 | no change at or below a value of a union reaches the agent's copy, whatever port is found, because the copy holds the tagged value |
| `StateSync.EqualIff` | rekuest_next/state/observable.py:634-636 | what counts as unchanged when an attribute is set: the same value but for paths and ports and for a bool and its number, with every dataclass in it evented and the same one |
| `StateSync.EqualShrinksAlike` | rekuest_next/state/observable.py:634-636 | equal values become the same JSON through every port without unions |
| `StateSync.IgnoredLosesNothing` | rekuest_next/state/observable.py:634-636 | so a set that is ignored would not have changed what the state shrinks to, if no union is in the attribute's port |
| `StateSync.UnionsTellApart` | rekuest_next/state/observable.py:634-636 | through a union of bool and int it would have: 1 and True are equal and shrink differently |
| `Replication.RestartAgreesIff` | rekuest_next/agents/base.py:948-952 | replicas of a restarted agent agree after every run exactly when its old revision was zero |
| `Ports.ConvertObjectToArgPort` | rekuest_next/definition/define.py:195-491 | the recursive compiler with its loops computes the argument port, or fails |
| `Ports.ConvertObjectToReturnPort` | rekuest_next/definition/define.py:494-791 | the same for return ports |
| `Ports.ArgAndReturnAgree` | rekuest_next/definition/define.py:494-791 | for every finite type both compilers fail together or give equal match trees: key, kind, nullability, identifier and children |
| `Ports.PortShape` | rekuest_next/definition/define.py:310-370 | a list or dict port has exactly one child keyed "...", union children are keyed 0, 1, 2, ..., and every port keeps its key |
| `Ports.CompiledAs` | rekuest_next/definition/define.py:219-370 | whatever annotations and union with None are around it, a list, dict, union or model compiles to its kind and identifier with a child for its items, variants or fields in order, each port nullable exactly if its own type allows None or it was asked for |
| `Ports.CompilesIff` | rekuest_next/definition/define.py:195-491 | a type compiles exactly if every literal and class in it is known to the registry or replaced by its default's kind, no union has a single member but the one with None, and no default is given twice |
| `Ports.ReturnIsAlike` | rekuest_next/definition/define.py:494-791 | a type compiles to a return port exactly if it compiles to an argument port, and they are equal at every depth but for what they require or provide |
| `Ports.LeafKinds` | rekuest_next/definition/define.py:372-491 | the kind of the port of each type without children, and that a registered class brings its kind and identifier |
| `Ports.DefaultsDecide` | rekuest_next/definition/define.py:390-470 | of the kinds of a type and of its default the first in the order bool, int, float, date, string decides |
| `Ports.AnnotationsAddUp` | rekuest_next/definition/define.py:275-308 | under any number of annotations two given defaults are an error, a single one counts for the type inside, and requirements add up from the outside in |
| `Ports.ReturnAnnotationsAddUp` | rekuest_next/definition/define.py:574-607 | the same for what return ports provide |
| `Ports.MatchDetermines` | rekuest_next/definition/match.py:4-23 | two ports have equal matches exactly if they are equal, at every depth, but for what they require or provide |
| `Ports.OptionalIsNullableIff` | rekuest_next/definition/define.py:219-241 | `Optional[T]` compiles as T with nullable set exactly when no requirements are given from outside or T loses them too |
| `Ports.OptionalReturnIsNullableIff` | rekuest_next/definition/define.py:518-545 | the same for return ports, of which models keep what they provide |
| `Ports.ResolvePortMatchPath` | rekuest_next/blok/parser.py:686-731 | the loop popping segments follows the named or the only wildcard child, and reports the first segment that does not exist |
| `Ports.SegmentPreserved` | rekuest_next/definition/match.py:4-23 | one segment finds a child of a type's match exactly when it is legal there: a field, any item, a variant's index |
| `Ports.PathPreservedIff` | rekuest_next/definition/match.py:4-23 | a dotted tail resolves in the match tree of a compiled type exactly when it is a legal access path, and lands on the match of the type it reaches |
| `Ports.StatePathPreservedIff` | rekuest_next/blok/parser.py:679-731 | the same for return ports below the root match of a demanded state |
| `Blok.References.CollectPath` | rekuest_next/blok/registry.py:264-286 | what one path refers to, given the local values in scope |
| `Blok.References.CollectCall` | rekuest_next/blok/registry.py:174-192 | an agent call refers to its action and to what its arguments refer to |
| `Blok.References.CollectArgument` | rekuest_next/blok/registry.py:212-261 | an argument refers to its path, calls, items and entries |
| `Blok.References.CollectProp` | rekuest_next/blok/registry.py:140-171 | a prop refers to its dynamic value and calls |
| `Blok.PathRefersTo` | rekuest_next/blok/registry.py:264-286 | a path that starts at a local value or under `utils` refers to nothing; any other to the state of the dependency it names, with or without `state.` in front |
| `Blok.CallRefersTo` | rekuest_next/blok/registry.py:174-192 | a call refers to the action named by the last segment of its operation, whatever the local values |
| `Blok.ArgumentRefersTo` | rekuest_next/blok/registry.py:212-261 | an argument refers to what its path, its call, and each argument of its utility, items and entries refer to, and to nothing else |
| `Blok.NodeRefersTo` | rekuest_next/blok/registry.py:104-137 | a node refers to what its props and children refer to, all of which see what it inherits and what any of its props declares |
| `Blok.DeclaredAre` | rekuest_next/blok/registry.py:104-137 | the local values of a node are what its props declare |
| `Blok.MergeReferenceMaps` | rekuest_next/blok/registry.py:319-324 | merging dictionaries of sets is the union of their entries, and no entry is empty |
| `Blok.CollectComponent` | rekuest_next/blok/registry.py:104-137 | the three collections hold exactly the references of the tree, each node seeing the local values declared above it |
| `BlokValidation.ValidateNode` | rekuest_next/blok/parser.py:307-347 | the walk that copies and extends the locals finds the first failure of the tree; what its acceptance means is in `BlokAccepted` |
| `BlokValidation.ValidateBlok` | rekuest_next/blok/parser.py:272-304 | the same, in the environment built from the dependencies |
| `BlokValidation.LocalsAgreeEverywhere` | rekuest_next/blok/parser.py:307-393 | at every node the collector's local values are exactly the keys of the validator's |
| `BlokValidation.NodeFits` | rekuest_next/blok/parser.py:396-560 | a tree whose references are covered and of whose paths none is taken over only fails by its own faults |
| `BlokValidation.NodeShadowed` | rekuest_next/blok/parser.py:576-594 | a tree with a path that is taken over does not validate, wherever in the tree the path is |
| `BlokValidation.PathFits` | rekuest_next/blok/parser.py:563-648 | the same for one path |
| `BlokAccepted.NodeAccepted` | rekuest_next/blok/parser.py:307-347 | in an accepted tree, at every depth, every dependency that is called is known by key or app, and every path that does not start at a local value leads somewhere |
| `BlokAccepted.AcceptedCalls` | rekuest_next/blok/parser.py:436-450 | an accepted component calls only dependencies that are there |
| `BlokAccepted.AcceptedStates` | rekuest_next/blok/parser.py:563-594 | in an accepted component a path that names a dependency and then something names a state of that dependency |
| `BlokAccepted.CallAcceptedIff` | rekuest_next/blok/parser.py:436-450 | a call without arguments is accepted exactly if its dependency is known |
| `BlokAccepted.ResolvesIff` | rekuest_next/blok/parser.py:563-648 | a path that does not start at a local value resolves exactly if it leads somewhere: below a state of the dependency it names, below the only state of a key, at a known dependency, or under `utils` |
| `BlokAccepted.FailsAs` | rekuest_next/blok/parser.py:576-648 | what a path that leads nowhere is told: a missing state, something missing below a state, an ambiguous key, an unknown reference, or an index error for `state` alone |
| `BlokAccepted.LocalPath` | rekuest_next/blok/parser.py:563-575 | a path that starts at a local value goes on in what is known of that value |
| `BlokAccepted.NameKnownIff` | rekuest_next/blok/parser.py:275-280 | a name is known exactly if it is the key or the app of a dependency |
| `BlokAccepted.EnvNames` | rekuest_next/blok/parser.py:275-287 | exactly the keys of the dependencies are known and have states, and exactly their apps stand for a key |
| `BlokAccepted.EnvStates` | rekuest_next/blok/parser.py:281-287 | a key has the states of its last dependency |
| `BlokAccepted.EnvApps` | rekuest_next/blok/parser.py:276-280 | an app stands for the key of its last dependency |
| `BlokAccepted.IndexIsAllStates` | rekuest_next/blok/parser.py:288-293 | a state key is looked up among the states of all dependencies, in order |
| `BlokAccepted.ForeachBinds` | rekuest_next/blok/parser.py:350-393 | a ForEach over a path to a list binds its value to the items, over a path of which nothing is known to nothing known, and fails over anything else |
| `BlokAccepted.OtherNodesDeclare` | rekuest_next/blok/parser.py:307-330 | any other node adds what its props declare |
| `BlokAccepted.DeclaredAreUnknown` | rekuest_next/blok/parser.py:316-330 | what a node declares is known by name only, and what it inherits stays as it is |
| `BlokDependencies.BuildDependencies` | rekuest_next/blok/registry.py:55-101 | dependencies are generated if and only if everything is registered and unscoped states have exactly one dependency to go to; they list exactly the references, sorted |
| `BlokDependencies.GeneratedCovers` | rekuest_next/blok/registry.py:55-101 | the environment of the generated dependencies has everything that was collected |
| `BlokDependencies.OwnDependenciesIff` | rekuest_next/blok/parser.py:272-304 | against its own dependencies a component fails if one of its paths is taken over by a dependency called state or utils that lacks its second segment; otherwise it fails only on a nested tail, a ForEach over no list, or a path of one segment |
| `BlokDependencies.OwnDependenciesSuffice` | rekuest_next/blok/parser.py:272-304 | in particular when no dependency has either name |
| `BlokDependencies.ShadowedComponentFails` | rekuest_next/blok/parser.py:576-594 | a component that is not valid against the dependencies generated for it |

## Left out

- Websocket, HTTP and GraphQL transports, sessions, connecting and tearing down: a send is an appended message, or a failure.
- `asyncio` itself: locks are granted whenever they are free, in any order, so nothing here depends on FIFO fairness; user code in a body is one step that ends and does not re-enter its own actor or keys.
- Cancelling a task a second time while it is still unwinding from the first.
- Message values are values. Shrinking one value is one step, although it awaits, so a change in the middle of it is not modelled; nor is a change of a container after it has left the state, which is still published under its old path.
- Observable containers are values too, told apart by their place: one object at two places of a state, the locks a mutation requires, keys of dictionaries that are not strings, attributes whose names begin with an underscore, and containers that shrink through the port of a leaf (shelved, or as a structure) are not modelled.
- What a leaf shrinks to through the registry is fixed with it; a value of a `Literal` counts as an enum, and floats as things that shrink to themselves, so that a float and an equal int are not equal here.
- The queue of one state: patches of the agent's other states in between change neither its copy nor its values.
- The CancelRequest that a generator sends when it is closed, also for a finished task, and the events that `_confirm_cancellation` drains from a cancelled call.
- Slices, `sort`, `reverse` and the other list operations of observable states that publish several patches or a whole list.
- The XML and Python expression grammars: bloks start as parsed trees; literals and error texts are left out.
- Demo states of bloks, `resolve_state_reference`, declarations and demands by hand, shelving, background tasks, startup and shutdown hooks.
- Labels, descriptions, widgets, validators, effects, defaults, proposed units and choices of ports: they do not reach the match tree. Of a default only its class is kept, because it decides a leaf's kind.
- The structure registry: what it knows of a class is a table, the same for both compilers, as in rekuest_next/structures/registry.py:318-495. Registering models in it is left out.
- Recursive model classes, on which the compilers do not terminate.
- Two live calls, or two assignments, with one task id at the same time, and one lock key under two identities.
- User code that catches the cancellation of its own task.
- StateSync.MutationReplicatesIff: says nothing where the found port shrinks the value to something else and the stored path is wrong as well, because the two errors can cancel out.
- StateSync.UnionNever: leaves out the names `__use` and `__value`, which the tag itself uses.
- Replication.ReplicasAgree: assumes that no published path is empty, which holds because a path always ends in a token; `Replication.RootPatchAgreesIff` says what an empty one does.
- ReportStream.RetainedExactly: assumes that message ids are fresh, as they are generated.
- Replication.StateAgent.InitStates: does not fix what is left of the states when a startup hook returns a state that is not registered, because that depends on the order of a dictionary.
- Blok.CollectComponent: the error texts that list the available names are not modelled.
