/** The agent's replicated states: `ainit_states`, `_aprocess_patch_event` and `_aapply_patch_to_shrunk_state`
    (rekuest_next/agents/base.py), and a remote replica that follows the messages. */
module Replication {
  import opened Prelude
  import opened JsonPatch
  import JsonPointer

  type States = map<string, Json>

  /** `port` says whether a port was found that shrinks the value; a patch that needs one cannot be processed
      otherwise. */
  datatype QueuedPatch = QueuedPatch(interface: string, patch: Patch, port: bool)

  datatype Message =
    | StateSnapshot(rev: nat, states: States)
    | StatePatch(rev: nat, interface: string, patch: Patch)

  /** `alive` is false once the patch processor has raised: it is never restarted. */
  datatype Agent = Agent(states: States, rev: nat, sent: seq<Message>, alive: bool)

  /** The patched document is not rebound, so a patch of the whole document has no effect on the agent. */
  function AppliedInPlace(doc: Json, p: Patch): Option<Json> {
    if p.path == "" && !p.op.Remove? then Some(doc) else ApplyAt(doc, p.op, p.path, p.value)
  }

  function Shrunk(q: QueuedPatch): Option<Patch> {
    if q.patch.op.Remove? then Some(q.patch.(value := Null))
    else if q.port then Some(q.patch)
    else None
  }

  function Processed(a: Agent, interval: int, q: QueuedPatch): Agent {
    if !a.alive then a
    else if q.interface !in a.states || Shrunk(q).None? then a.(alive := false)
    else
      var p := Shrunk(q).value;
      var doc := AppliedInPlace(a.states[q.interface], p);
      if doc.None? then a.(alive := false)
      else
        var states, rev := a.states[q.interface := doc.value], a.rev + 1;
        if interval == 0 then Agent(states, rev, a.sent, false)
        else
          var checkpoint := if rev % interval == 0 then [StateSnapshot(rev, states)] else [];
          Agent(states, rev, a.sent + checkpoint + [StatePatch(rev, q.interface, p)], true)
  }

  function Except(states: States, keys: set<string>): States {
    map k | k in states && k !in keys :: states[k]
  }

  class StateAgent {
    const snapshotInterval: int
    var currentShrunkStates: States
    var globalRevision: nat
    var alive: bool
    var sent: seq<Message>

    ghost function View(): Agent
      reads this
    {
      Agent(currentShrunkStates, globalRevision, sent, alive)
    }

    constructor (snapshotInterval: int)
      ensures View() == Agent(map[], 0, [], true) && this.snapshotInterval == snapshotInterval
    {
      this.snapshotInterval := snapshotInterval;
      currentShrunkStates, globalRevision, alive, sent := map[], 0, true, [];
    }

    /** Sends the first snapshot, if the startup hooks gave a value to exactly the registered states. */
    method InitStates(schemas: set<string>, startup: States) returns (ok: bool)
      modifies this
      ensures ok <==> startup.Keys == schemas
      ensures ok ==> View() == old(View()).(states := old(currentShrunkStates) + startup,
                       sent := old(sent) + [StateSnapshot(old(globalRevision), old(currentShrunkStates) + startup)])
      ensures !ok ==> sent == old(sent)
      ensures !ok && schemas - startup.Keys != {} ==> View() == old(View())
    {
      if schemas - startup.Keys != {} {
        return false;
      }
      var todo := startup.Keys;
      while todo != {}
        invariant todo <= startup.Keys && startup.Keys - todo <= schemas
        invariant View() == old(View()).(states := currentShrunkStates)
        invariant currentShrunkStates == old(currentShrunkStates) + Except(startup, todo)
      {
        var interface :| interface in todo;
        if interface !in schemas {
          assert interface in startup.Keys && startup.Keys != schemas;
          return false;
        }
        currentShrunkStates := currentShrunkStates[interface := startup[interface]];
        todo := todo - {interface};
      }
      assert Except(startup, todo) == startup;
      sent := sent + [StateSnapshot(globalRevision, currentShrunkStates)];
      return true;
    }

    /** One turn of the patch event loop. */
    method ProcessPatchEvent(q: QueuedPatch)
      modifies this
      ensures View() == Processed(old(View()), snapshotInterval, q)
    {
      if !alive {
        return;
      }
      var shrunk := Shrunk(q);
      if q.interface !in currentShrunkStates || shrunk.None? {
        alive := false;
        return;
      }
      var doc := AppliedInPlace(currentShrunkStates[q.interface], shrunk.value);
      if doc.None? {
        alive := false;
        return;
      }
      currentShrunkStates := currentShrunkStates[q.interface := doc.value];
      globalRevision := globalRevision + 1;
      if snapshotInterval == 0 {
        alive := false;
        return;
      }
      if globalRevision % snapshotInterval == 0 {
        sent := sent + [StateSnapshot(globalRevision, currentShrunkStates)];
      }
      sent := sent + [StatePatch(globalRevision, q.interface, shrunk.value)];
    }
  }

  function Run(a: Agent, interval: int, qs: seq<QueuedPatch>): Agent
    decreases qs
  {
    if qs == [] then a else Run(Processed(a, interval, qs[0]), interval, qs[1..])
  }

  // ---------------------------------------------------------------- what the processor does with a queue

  /** One queued patch applied to the states: `None` if the interface is unknown, a value has no port to be shrunk with,
      or the operation cannot be done. */
  function Replayed(states: States, q: QueuedPatch): Option<States> {
    if q.interface !in states || !(q.port || q.patch.op.Remove?) then None
    else
      match ApplyAt(states[q.interface], q.patch.op, q.patch.path, if q.patch.op.Remove? then Null else q.patch.value)
      case Some(doc) => Some(states[q.interface := doc])
      case None => None
  }

  function ReplayedAll(states: States, qs: seq<QueuedPatch>): Option<States>
    decreases qs
  {
    if qs == [] then Some(states)
    else match Replayed(states, qs[0]) case Some(next) => ReplayedAll(next, qs[1..]) case None => None
  }

  /** Once it has died, nothing is applied, numbered or sent any more. */
  lemma {:induction false} DeathIsFinal(a: Agent, interval: int, qs: seq<QueuedPatch>)
    requires !a.alive
    ensures Run(a, interval, qs) == a
    decreases qs
  {
    if qs != [] {
      DeathIsFinal(a, interval, qs[1..]);
    }
  }

  lemma OneProcessed(a: Agent, interval: int, q: QueuedPatch)
    requires a.alive && interval != 0 && q.patch.path != ""
    ensures var a', next := Processed(a, interval, q), Replayed(a.states, q);
      && (a'.alive <==> next.Some?)
      && (next.Some? ==> a'.states == next.value && a'.rev == a.rev + 1)
      && (next.None? ==> a' == a.(alive := false))
  {
  }

  /** The processor survives a queue exactly if every patch in it, in turn, can be applied to the states; then they are
      what the patches make of them, and every patch has a number. It never survives an interval of zero. */
  lemma {:induction false} SurvivesIff(a: Agent, interval: int, qs: seq<QueuedPatch>)
    requires a.alive && Rooted(qs)
    ensures interval != 0 ==>
              var a', all := Run(a, interval, qs), ReplayedAll(a.states, qs);
              (a'.alive <==> all.Some?) && (all.Some? ==> a'.states == all.value && a'.rev == a.rev + |qs|)
    ensures interval == 0 && qs != [] ==> !Run(a, interval, qs).alive && Run(a, interval, qs).sent == a.sent
    decreases qs
  {
    if qs != [] {
      var a' := Processed(a, interval, qs[0]);
      assert qs[0].patch.path != "";
      assert forall i :: 0 <= i < |qs| - 1 ==> qs[1..][i] == qs[i + 1];
      if interval != 0 {
        OneProcessed(a, interval, qs[0]);
      }
      if a'.alive {
        SurvivesIff(a', interval, qs[1..]);
      } else {
        DeathIsFinal(a', interval, qs[1..]);
      }
    }
  }

  // ---------------------------------------------------------------- the replica

  datatype Replica = Replica(rev: nat, states: States)

  /** A replica applies a patch only if it is newer than what it has. */
  function Following(r: Replica, m: Message): Replica {
    if m.StatePatch? && m.rev > r.rev && m.interface in r.states then
      var doc := ApplyAt(r.states[m.interface], m.patch.op, m.patch.path, m.patch.value);
      if doc.None? then r else Replica(m.rev, r.states[m.interface := doc.value])
    else
      r
  }

  function Follow(r: Replica, ms: seq<Message>): Replica {
    if ms == [] then r else Following(Follow(r, ms[..|ms| - 1]), ms[|ms| - 1])
  }

  /** The replica that starts at snapshot `k` and follows everything sent after it. */
  function From(sent: seq<Message>, k: nat): Replica
    requires k < |sent| && sent[k].StateSnapshot?
  {
    Follow(Replica(sent[k].rev, sent[k].states), sent[k + 1..])
  }

  lemma FollowAppend(r: Replica, ms: seq<Message>, m: Message)
    ensures Follow(r, ms + [m]) == Following(Follow(r, ms), m)
  {
    assert (ms + [m])[..|ms|] == ms;
  }

  ghost predicate Agrees(a: Agent) {
    forall k :: 0 <= k < |a.sent| && a.sent[k].StateSnapshot? ==> From(a.sent, k) == Replica(a.rev, a.states)
  }

  /** Every patch sent so far, in order. */
  function Patches(ms: seq<Message>): seq<Message> {
    if ms == [] then [] else Patches(ms[..|ms| - 1]) + if ms[|ms| - 1].StatePatch? then [ms[|ms| - 1]] else []
  }

  ghost predicate RevisionsFromOne(ms: seq<Message>, n: nat) {
    |Patches(ms)| == n && forall i :: 0 <= i < n ==> Patches(ms)[i].rev == i + 1
  }

  predicate Due(rev: nat, interval: int) {
    interval != 0 && rev % interval == 0
  }

  predicate CheckpointRight(ms: seq<Message>, i: nat, interval: int)
    requires 0 < i < |ms|
  {
    match ms[i]
    case StatePatch(rev, _, _) => Due(rev, interval) <==> i > 1 && ms[i - 1].StateSnapshot?
    case StateSnapshot(rev, _) =>
      Due(rev, interval) && i + 1 < |ms| && ms[i + 1].StatePatch? && ms[i + 1].rev == rev
  }

  /** Beyond the first one, a snapshot is sent exactly at the multiples of the interval, right before the patch
      of its own revision, which it already includes. */
  ghost predicate Checkpointed(ms: seq<Message>, interval: int) {
    forall i :: 0 < i < |ms| ==> CheckpointRight(ms, i, interval)
  }

  /** No path is empty: `_make_path` always adds a token. */
  ghost predicate Rooted(qs: seq<QueuedPatch>) {
    forall i :: 0 <= i < |qs| ==> qs[i].patch.path != ""
  }

  ghost predicate Inv(a: Agent, interval: int) {
    && interval != 0 && a.sent != [] && a.sent[0].StateSnapshot?
    && Agrees(a) && RevisionsFromOne(a.sent, a.rev) && Checkpointed(a.sent, interval)
  }

  function Fresh(states: States): Agent {
    Agent(states, 0, [StateSnapshot(0, states)], true)
  }

  // ---------------------------------------------------------------- agreement

  lemma FromAppend(sent: seq<Message>, k: nat, m: Message)
    requires k < |sent| && sent[k].StateSnapshot?
    ensures From(sent + [m], k) == Following(From(sent, k), m)
  {
    assert (sent + [m])[k + 1..] == sent[k + 1..] + [m];
    FollowAppend(Replica(sent[k].rev, sent[k].states), sent[k + 1..], m);
  }

  lemma FromLast(sent: seq<Message>, m: Message)
    requires m.StateSnapshot?
    ensures From(sent + [m], |sent|) == Replica(m.rev, m.states)
  {
    assert (sent + [m])[|sent| + 1..] == [];
  }

  /** A patch that the agent applied brings every replica along. */
  lemma PatchAgrees(a: Agent, q: QueuedPatch, p: Patch, doc: Json)
    requires Agrees(a) && q.interface in a.states && p.path != ""
    requires AppliedInPlace(a.states[q.interface], p) == Some(doc)
    ensures Agrees(Agent(a.states[q.interface := doc], a.rev + 1,
                         a.sent + [StatePatch(a.rev + 1, q.interface, p)], true))
  {
    var m := StatePatch(a.rev + 1, q.interface, p);
    forall k | 0 <= k < |a.sent + [m]| && (a.sent + [m])[k].StateSnapshot?
      ensures From(a.sent + [m], k) == Replica(a.rev + 1, a.states[q.interface := doc])
    {
      FromAppend(a.sent, k, m);
    }
  }

  /** The same with a checkpoint before the patch. */
  lemma CheckpointAgrees(a: Agent, q: QueuedPatch, p: Patch, doc: Json)
    requires Agrees(a) && q.interface in a.states && p.path != ""
    requires AppliedInPlace(a.states[q.interface], p) == Some(doc)
    ensures var states, rev := a.states[q.interface := doc], a.rev + 1;
      Agrees(Agent(states, rev, a.sent + [StateSnapshot(rev, states)] + [StatePatch(rev, q.interface, p)], true))
  {
    var states, rev := a.states[q.interface := doc], a.rev + 1;
    var c, m := StateSnapshot(rev, states), StatePatch(rev, q.interface, p);
    var sent := a.sent + [c];
    forall k | 0 <= k < |sent + [m]| && (sent + [m])[k].StateSnapshot?
      ensures From(sent + [m], k) == Replica(rev, states)
    {
      FromAppend(sent, k, m);
      if k < |a.sent| {
        FromAppend(a.sent, k, c);
      } else {
        FromLast(a.sent, c);
      }
    }
  }

  lemma PatchesAppend(ms: seq<Message>, m: Message)
    ensures Patches(ms + [m]) == Patches(ms) + if m.StatePatch? then [m] else []
  {
    assert (ms + [m])[..|ms|] == ms;
  }

  lemma NumberingOfPatch(ms: seq<Message>, n: nat, m: Message)
    requires RevisionsFromOne(ms, n) && m.StatePatch? && m.rev == n + 1
    ensures RevisionsFromOne(ms + [m], n + 1)
  {
    PatchesAppend(ms, m);
  }

  /** What is right in a list of messages stays right when more follow. */
  lemma CheckpointStays(ms: seq<Message>, more: seq<Message>, i: nat, interval: int)
    requires 0 < i < |ms| && CheckpointRight(ms, i, interval)
    ensures CheckpointRight(ms + more, i, interval)
  {
    assert (ms + more)[i] == ms[i] && (ms + more)[i - 1] == ms[i - 1];
    assert i + 1 < |ms| ==> (ms + more)[i + 1] == ms[i + 1];
  }

  lemma PlainCheckpointed(ms: seq<Message>, interval: int, m: Message)
    requires ms != [] && Checkpointed(ms, interval)
    requires m.StatePatch? && !Due(m.rev, interval)
    ensures Checkpointed(ms + [m], interval)
  {
    forall i | 0 < i < |ms + [m]| ensures CheckpointRight(ms + [m], i, interval) {
      if i < |ms| {
        CheckpointStays(ms, [m], i, interval);
      } else if i > 1 {
        assert CheckpointRight(ms, i - 1, interval);
      }
    }
  }

  lemma SnapshotCheckpointed(ms: seq<Message>, interval: int, c: Message, m: Message)
    requires ms != [] && Checkpointed(ms, interval)
    requires c.StateSnapshot? && m.StatePatch? && m.rev == c.rev && Due(m.rev, interval)
    ensures Checkpointed(ms + [c, m], interval)
  {
    forall i | 0 < i < |ms + [c, m]| ensures CheckpointRight(ms + [c, m], i, interval) {
      if i < |ms| {
        CheckpointStays(ms, [c, m], i, interval);
      }
    }
  }

  lemma NumberingKept(a: Agent, interval: int, q: QueuedPatch)
    requires Inv(a, interval)
    ensures var a' := Processed(a, interval, q);
      RevisionsFromOne(a'.sent, a'.rev) && Checkpointed(a'.sent, interval)
  {
    var a' := Processed(a, interval, q);
    if a'.alive && a.alive {
      var c, m := StateSnapshot(a'.rev, a'.states), StatePatch(a'.rev, q.interface, Shrunk(q).value);
      if a'.rev % interval == 0 {
        assert a'.sent == a.sent + [c] + [m] == a.sent + [c, m];
        PatchesAppend(a.sent, c);
        NumberingOfPatch(a.sent + [c], a.rev, m);
        SnapshotCheckpointed(a.sent, interval, c, m);
      } else {
        assert a'.sent == a.sent + [m];
        NumberingOfPatch(a.sent, a.rev, m);
        PlainCheckpointed(a.sent, interval, m);
      }
    }
  }

  lemma ProcessedKeepsInv(a: Agent, interval: int, q: QueuedPatch)
    requires Inv(a, interval) && q.patch.path != ""
    ensures Inv(Processed(a, interval, q), interval)
  {
    var a' := Processed(a, interval, q);
    NumberingKept(a, interval, q);
    if a'.alive && a.alive {
      var p := Shrunk(q).value;
      var doc := AppliedInPlace(a.states[q.interface], p).value;
      if a'.rev % interval == 0 {
        CheckpointAgrees(a, q, p, doc);
      } else {
        PatchAgrees(a, q, p, doc);
        assert a.sent + [] == a.sent;
      }
    } else {
      assert a'.sent == a.sent && a'.rev == a.rev && a'.states == a.states;
    }
  }

  lemma {:induction false} RunKeepsInv(a: Agent, interval: int, qs: seq<QueuedPatch>)
    requires Inv(a, interval) && Rooted(qs)
    ensures Inv(Run(a, interval, qs), interval)
    decreases qs
  {
    if qs != [] {
      assert qs[0].patch.path != "";
      ProcessedKeepsInv(a, interval, qs[0]);
      assert forall i :: 0 <= i < |qs[1..]| ==> qs[1..][i] == qs[i + 1];
      RunKeepsInv(Processed(a, interval, qs[0]), interval, qs[1..]);
    }
  }

  lemma FreshInv(states: States, interval: int)
    requires interval != 0
    ensures Inv(Fresh(states), interval)
  {
    var sent := Fresh(states).sent;
    assert sent[1..] == [];
    assert sent == [] + [sent[0]];
    PatchesAppend([], sent[0]);
  }

  /** Whatever patches a fresh agent processes, until one fails: patches carry revisions 1, 2, 3, ... without gaps,
      snapshots come exactly at the multiples of the interval and include the patch of their own revision, and a
      replica that starts at any snapshot and applies only later patches equals the agent's states. */
  lemma ReplicasAgree(states: States, interval: int, qs: seq<QueuedPatch>, k: nat)
    requires interval != 0 && Rooted(qs)
    requires k < |Run(Fresh(states), interval, qs).sent| && Run(Fresh(states), interval, qs).sent[k].StateSnapshot?
    ensures var a := Run(Fresh(states), interval, qs);
      && From(a.sent, k) == Replica(a.rev, a.states)
      && RevisionsFromOne(a.sent, a.rev) && Checkpointed(a.sent, interval)
  {
    FreshInv(states, interval);
    RunKeepsInv(Fresh(states), interval, qs);
  }

  // ---------------------------------------------------------------- where the code falls short

  /** A restarted agent sends its first snapshot with the old revision and only then counts from zero again. */
  function Restarted(states: States, oldRevision: nat): Agent {
    Fresh(states).(sent := [StateSnapshot(oldRevision, states)])
  }

  /** The replica that starts there agrees after every run exactly when the old revision was zero: otherwise it
      takes the first patches for ones it already has. */
  lemma RestartAgreesIff(states: States, oldRevision: nat, interval: int, i: string)
    requires interval != 0 && i in states && states[i].Obj?
    ensures (forall qs :: Rooted(qs) ==>
              var a := Run(Restarted(states, oldRevision), interval, qs);
              |a.sent| > 0 && a.sent[0].StateSnapshot? && From(a.sent, 0).states == a.states)
            <==> oldRevision == 0
  {
    if oldRevision == 0 {
      assert Restarted(states, 0) == Fresh(states);
      FreshInv(states, interval);
      forall qs | Rooted(qs) ensures
        var a := Run(Restarted(states, oldRevision), interval, qs);
        |a.sent| > 0 && a.sent[0].StateSnapshot? && From(a.sent, 0).states == a.states
      {
        RunKeepsInv(Fresh(states), interval, qs);
      }
    } else {
      RestartMissesFirst(states, oldRevision, interval, i);
    }
  }

  lemma RestartMissesFirst(states: States, oldRevision: nat, interval: int, i: string)
    requires interval != 0 && oldRevision > 0 && i in states && states[i].Obj?
    ensures exists qs :: Rooted(qs) &&
              var a := Run(Restarted(states, oldRevision), interval, qs);
              !(|a.sent| > 0 && a.sent[0].StateSnapshot? && From(a.sent, 0).states == a.states)
  {
    var fields := states[i].fields;
    var v := if "x" in fields && fields["x"] == Null then Bool(true) else Null;
    var q := QueuedPatch(i, Patch(Add, JsonPointer.MakePath("", "x"), v), true);
    var a0 := Restarted(states, oldRevision);
    var a := Processed(a0, interval, q);
    assert Run(a0, interval, [q]) == a by {
      assert [q][1..] == [];
    }
    FieldAdded(a0, interval, i, "x", v);
    assert a.states[i].fields["x"] == v;
    StaleReplicaIgnores(Replica(oldRevision, states), a.sent[1..], 1);
    assert Rooted([q]);
  }

  /** One patch that adds a field to an object: the state changes, and what is sent carries the next revision. */
  lemma FieldAdded(a: Agent, interval: int, i: string, key: string, v: Json)
    requires interval != 0 && a.alive && |a.sent| == 1 && i in a.states && a.states[i].Obj?
    ensures var a' := Processed(a, interval, QueuedPatch(i, Patch(Add, JsonPointer.MakePath("", key), v), true));
      && a'.states == a.states[i := Obj(a.states[i].fields[key := v])]
      && |a'.sent| > 1 && a'.sent[0] == a.sent[0]
      && forall k :: 0 <= k < |a'.sent[1..]| ==> a'.sent[1..][k].rev == a.rev + 1
  {
    JsonPointer.MakePathParses("", key);
    assert [] + [key] == [key];
  }

  /** A replica ignores whatever is no newer than itself. */
  lemma {:induction false} StaleReplicaIgnores(r: Replica, ms: seq<Message>, n: nat)
    requires n <= r.rev && forall i :: 0 <= i < |ms| ==> ms[i].rev <= n
    ensures Follow(r, ms) == r
  {
    if ms != [] {
      StaleReplicaIgnores(r, ms[..|ms| - 1], n);
    }
  }

  /** A patch of the whole document reaches the replica but not the agent, so they part exactly when it would have
      changed something. */
  lemma RootPatchAgreesIff(a: Agent, interval: int, i: string, op: Op, v: Json)
    requires Inv(a, interval) && a.alive && i in a.states && !op.Remove?
    ensures var a' := Processed(a, interval, QueuedPatch(i, Patch(op, "", v), true));
      From(a'.sent, 0).states == a'.states <==> v == a.states[i]
  {
    var p := Patch(op, "", v);
    var a' := Processed(a, interval, QueuedPatch(i, p, true));
    var m := StatePatch(a.rev + 1, i, p);
    if a'.rev % interval == 0 {
      var c := StateSnapshot(a'.rev, a'.states);
      FromAppend(a.sent, 0, c);
      FromAppend(a.sent + [c], 0, m);
    } else {
      assert a.sent + [] == a.sent;
      FromAppend(a.sent, 0, m);
    }
    assert From(a'.sent, 0).states == a.states[i := v] && a'.states == a.states[i := a.states[i]];
    assert a.states[i := v][i] == v;
  }
}
