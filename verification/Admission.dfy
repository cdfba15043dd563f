/** Admission of assignments as a transition system of any number of tasks.

    A task takes its actor's serial lock, then its shared keys in sorted order, then passes the
    capture gate, runs its body, and gives everything back in reverse
    (`Actor.sync_context`, `LockGroup`, `capture_to_list`, `FunctionalActor.on_assign`).
    Any await may be interleaved with any other task, and any of them may fail. */
module Admission {
  import opened Prelude
  import opened KeyOrder

  datatype Resource = Serial(actor: nat) | Shared(key: string)

  /** What one assignment acquires, in order, and whether it captures output. */
  datatype Task = Task(plan: seq<Resource>, capture: bool)

  function SerialCount(t: Task): nat {
    if t.plan != [] && t.plan[0].Serial? then 1 else 0
  }

  /** The plan of an assignment: the actor's serial lock first, then the lock keys the agent has a
      lock for, sorted. */
  function PlanFor(actor: nat, serial: bool, keys: seq<string>): seq<Resource> {
    PlanOver(actor, serial, SortOn(keys, k => k))
  }

  function PlanOver(actor: nat, serial: bool, keys: seq<string>): seq<Resource> {
    (if serial then [Serial(actor)] else []) + seq(|keys|, i requires 0 <= i < |keys| => Shared(keys[i]))
  }

  /** The rank order: every serial lock is below every shared key, and shared keys climb with the key. */
  predicate Lower(a: Resource, b: Resource) {
    b.Shared? && (a.Shared? ==> Below(a.key, b.key))
  }

  type Config = seq<Task>

  /** A plan whose resources strictly climb in rank. */
  ghost predicate Climbs(plan: seq<Resource>) {
    forall i, j :: 0 <= i < j < |plan| ==> Lower(plan[i], plan[j])
  }

  ghost predicate AllClimb(c: Config) {
    forall t :: 0 <= t < |c| ==> Climbs(c[t].plan)
  }

  lemma LowerIrreflexive(r: Resource)
    ensures !Lower(r, r)
  {
    if r.Shared? {
      BelowIrreflexive(r.key);
    }
  }

  /** Distinct keys give a climbing plan, in whatever order they were declared; repeated ones do not. */
  lemma PlanClimbsIffDistinct(actor: nat, serial: bool, keys: seq<string>)
    ensures Climbs(PlanFor(actor, serial, keys)) <==> NoRepeats(keys)
  {
    var sorted := SortOn(keys, k => k);
    if NoRepeats(keys) {
      SortedDistinctClimbs(keys);
      SortedPlanClimbs(actor, serial, sorted);
    } else {
      var i, j :| 0 <= i < j < |keys| && keys[i] == keys[j];
      RepeatCountsTwice(keys, i, j);
      if Climbs(PlanFor(actor, serial, keys)) {
        ClimbingPlanHasNoRepeats(actor, serial, sorted);
        RepeatsCounted(sorted);
        assert false;
      }
    }
  }

  lemma SortedPlanClimbs(actor: nat, serial: bool, sorted: seq<string>)
    requires StrictlyAscending(sorted, k => k)
    ensures Climbs(PlanOver(actor, serial, sorted))
  {
    var plan, n := PlanOver(actor, serial, sorted), if serial then 1 else 0;
    forall i, j | 0 <= i < j < |plan| ensures Lower(plan[i], plan[j]) {
      if n <= i {
        assert Below((k => k)(sorted[i - n]), (k => k)(sorted[j - n]));
      }
    }
  }

  lemma ClimbingPlanHasNoRepeats(actor: nat, serial: bool, sorted: seq<string>)
    requires Climbs(PlanOver(actor, serial, sorted))
    ensures NoRepeats(sorted)
  {
    var plan, n := PlanOver(actor, serial, sorted), if serial then 1 else 0;
    forall x, y | 0 <= x < y < |sorted| ensures sorted[x] != sorted[y] {
      assert Lower(plan[x + n], plan[y + n]);
      BelowIrreflexive(sorted[x]);
    }
  }

  /** The keys of the resources after the first `m`. */
  function KeysFrom(plan: seq<Resource>, m: nat): seq<string>
    requires m <= |plan|
  {
    seq(|plan| - m, i requires 0 <= i < |plan| - m => KeyOf(plan[i + m]))
  }

  function KeyOf(r: Resource): string {
    if r.Shared? then r.key else ""
  }

  /** A task goes through the serial lock of its own actor first, if that is serial, and then through its shared keys,
      each as often as it is declared. */
  lemma PlanHas(actor: nat, serial: bool, keys: seq<string>)
    ensures var plan, m := PlanFor(actor, serial, keys), if serial then 1 else 0;
      && |plan| == m + |keys|
      && (serial ==> plan[0] == Serial(actor))
      && (forall i :: m <= i < |plan| ==> plan[i].Shared?)
      && multiset(KeysFrom(plan, m)) == multiset(keys)
      && (forall k :: Shared(k) in plan <==> k in keys)
  {
    var sorted := SortOn(keys, k => k);
    PlanOverHas(actor, serial, sorted);
    forall k ensures Shared(k) in PlanFor(actor, serial, keys) <==> k in keys {
      PlanMember(actor, serial, sorted, k);
      assert k in multiset(sorted) <==> k in multiset(keys);
    }
  }

  lemma PlanOverHas(actor: nat, serial: bool, keys: seq<string>)
    ensures var plan, m := PlanOver(actor, serial, keys), if serial then 1 else 0;
      && |plan| == m + |keys|
      && (serial ==> plan[0] == Serial(actor))
      && (forall i :: m <= i < |plan| ==> plan[i].Shared?)
      && KeysFrom(plan, m) == keys
  {
  }

  lemma PlanMember(actor: nat, serial: bool, keys: seq<string>, k: string)
    ensures Shared(k) in PlanOver(actor, serial, keys) <==> k in keys
  {
    var plan, m := PlanOver(actor, serial, keys), if serial then 1 else 0;
    if k in keys {
      var i :| 0 <= i < |keys| && keys[i] == k;
      assert plan[i + m] == Shared(k);
    }
  }

  /** Where a task stands, counting into its plan of length n.
      Waiting(n) holds everything and expands its inputs. Notifying(i) holds i + 1 and awaits `alock`.
      Unwinding(i) holds i. Unlocking(i) still holds i and awaits `aunlock` for the last of them. */
  datatype Pc =
    | Waiting(i: nat) | Notifying(i: nat) | AtGate | InBody
    | Unwinding(i: nat) | Unlocking(i: nat) | Finished

  /** `owner` records who took each locked lock, `locking` is `TaskLock.locking_task`, and `capturer` is
      the task that set `capture_active`. The source keeps only the flags: `owner.Keys` and `capturer.Some?`. */
  datatype State = State(pc: seq<Pc>, owner: map<Resource, nat>, locking: map<string, nat>, capturer: Option<nat>)

  function Init(c: Config): State {
    State(seq(|c|, _ => Waiting(0)), map[], map[], None)
  }

  datatype Action =
    | Take | NotifyDone | Prepare | Enter | Leave | Unlock | UnlockDone | Finish
    | NotifyFails | CancelWait | PrepareFails | CancelAtGate | CancelLeave | CancelUnlock

  /** The steps that happen without any failure or cancellation. */
  predicate Progress(a: Action) {
    a in {Take, NotifyDone, Prepare, Enter, Leave, Unlock, UnlockDone, Finish}
  }

  predicate Enabled(c: Config, s: State, t: nat, a: Action) {
    t < |c| == |s.pc| &&
    var plan, pc := c[t].plan, s.pc[t];
    match a
    case Take => pc.Waiting? && pc.i < |plan| && plan[pc.i] !in s.owner
    case CancelWait => pc.Waiting? && pc.i < |plan|
    case NotifyDone => pc.Notifying?
    case NotifyFails => pc.Notifying? && pc.i < |plan| && plan[pc.i].Shared?
    case Prepare => pc == Waiting(|plan|)
    case PrepareFails => pc == Waiting(|plan|)
    case Enter => pc.AtGate? && s.capturer.None?
    case CancelAtGate => pc.AtGate?
    case Leave => pc.InBody?
    case CancelLeave => pc.InBody? && c[t].capture
    case Unlock => pc.Unwinding? && 0 < pc.i <= |plan|
    case UnlockDone => pc.Unlocking? && 0 < pc.i <= |plan|
    case CancelUnlock => pc.Unlocking? && 0 < pc.i <= |plan|
    case Finish => pc == Unwinding(0)
  }

  function At(s: State, t: nat, pc: Pc): State
    requires t < |s.pc|
  {
    s.(pc := s.pc[t := pc])
  }

  function Step(c: Config, s: State, t: nat, a: Action): State
    requires Enabled(c, s, t, a)
  {
    var plan, pc := c[t].plan, s.pc[t];
    match a
    case Take =>
      var r := plan[pc.i];
      if r.Serial? then
        At(s, t, Waiting(pc.i + 1)).(owner := s.owner[r := t])
      else
        At(s, t, Notifying(pc.i)).(owner := s.owner[r := t], locking := s.locking[r.key := t])
    case NotifyDone => At(s, t, Waiting(pc.i + 1))
    case NotifyFails =>
      var r := plan[pc.i];
      At(s, t, Unwinding(pc.i)).(owner := Without(s.owner, r), locking := Without(s.locking, r.key))
    case CancelWait => At(s, t, Unwinding(pc.i))
    case Prepare => At(s, t, AtGate)
    case PrepareFails => At(s, t, Unwinding(|plan|))
    case Enter => At(s, t, InBody).(capturer := if c[t].capture then Some(t) else s.capturer)
    case CancelAtGate => At(s, t, Unwinding(|plan|))
    case Leave => At(s, t, Unwinding(|plan|)).(capturer := if c[t].capture then None else s.capturer)
    case CancelLeave =>
      // The wait for the condition is cancelled, and `capture_active` stays set.
      At(s, t, Unwinding(|plan|))
    case Unlock =>
      var r := plan[pc.i - 1];
      if r.Serial? then
        At(s, t, Unwinding(pc.i - 1)).(owner := Without(s.owner, r))
      else
        At(s, t, Unlocking(pc.i)).(locking := Without(s.locking, r.key))
    case UnlockDone => At(s, t, Unwinding(pc.i - 1)).(owner := Without(s.owner, plan[pc.i - 1]))
    case CancelUnlock =>
      // The local lock is freed, the rest of the group is skipped, and the exit stack goes on.
      At(s, t, Unwinding(SerialCount(c[t]))).(owner := Without(s.owner, plan[pc.i - 1]))
    case Finish => At(s, t, Finished)
  }

  // ---------------------------------------------------------------- what every step keeps

  function HeldCount(t: Task, pc: Pc): nat {
    match pc
    case Waiting(i) => i
    case Notifying(i) => i + 1
    case AtGate => |t.plan|
    case InBody => |t.plan|
    case Unwinding(i) => i
    case Unlocking(i) => i
    case Finished => 0
  }

  /** The first `n` resources of a plan, and the keys among them. */
  function Prefix(plan: seq<Resource>, n: nat): set<Resource> {
    set j | 0 <= j < n && j < |plan| :: plan[j]
  }

  function PrefixKeys(plan: seq<Resource>, n: nat): set<string> {
    set j | 0 <= j < n && j < |plan| && plan[j].Shared? :: plan[j].key
  }

  function Held(t: Task, pc: Pc): set<Resource> {
    Prefix(t.plan, HeldCount(t, pc))
  }

  /** The keys whose `locking_task` is the task: cleared before the unlock notification. */
  function Labelled(t: Task, pc: Pc): set<string> {
    PrefixKeys(t.plan, LabelCount(t, pc))
  }

  function LabelCount(t: Task, pc: Pc): nat {
    if pc.Unlocking? && pc.i > 0 then pc.i - 1 else HeldCount(t, pc)
  }

  ghost predicate WellPlaced(t: Task, pc: Pc) {
    var plan := t.plan;
    && HeldCount(t, pc) <= |plan|
    && (pc.Notifying? ==> plan[pc.i].Shared?)
    && (pc.Unlocking? ==> 0 < pc.i && plan[pc.i - 1].Shared?)
  }

  /** `owner` names exactly who has what: at most one task has each thing. */
  ghost predicate Tracks<R(!new)>(owner: map<R, nat>, has: seq<set<R>>) {
    && (forall t, r :: 0 <= t < |has| && r in has[t] ==> r in owner && owner[r] == t)
    && (forall r :: r in owner ==> owner[r] < |has| && r in has[owner[r]])
  }

  ghost function HeldByTask(c: Config, s: State): seq<set<Resource>>
    requires |s.pc| == |c|
  {
    seq(|c|, t requires 0 <= t < |c| => Held(c[t], s.pc[t]))
  }

  ghost function LabelledByTask(c: Config, s: State): seq<set<string>>
    requires |s.pc| == |c|
  {
    seq(|c|, t requires 0 <= t < |c| => Labelled(c[t], s.pc[t]))
  }

  /** A capture task in its body is the one that closed the gate. */
  ghost predicate GateNames(c: Config, s: State)
    requires |s.pc| == |c|
  {
    forall t :: 0 <= t < |c| && c[t].capture && s.pc[t].InBody? ==> s.capturer == Some(t)
  }

  /** The gate is closed only while its capture task is in its body. */
  ghost predicate GateIsHeld(c: Config, s: State)
    requires |s.pc| == |c|
  {
    s.capturer.Some? ==>
      s.capturer.value < |c| && c[s.capturer.value].capture && s.pc[s.capturer.value].InBody?
  }

  ghost predicate Placed(c: Config, s: State) {
    |s.pc| == |c| && (forall t :: 0 <= t < |c| ==> WellPlaced(c[t], s.pc[t])) && GateNames(c, s)
  }

  ghost predicate Inv(c: Config, s: State) {
    && Placed(c, s) && GateIsHeld(c, s)
    && Tracks(s.owner, HeldByTask(c, s))
    && Tracks(s.locking, LabelledByTask(c, s))
  }

  /** Every await of an unfinished task may be the one that is cancelled or fails: a wait for a lock, a lock or unlock
      notification, the preparation once all locks are held, and the gate. */
  lemma EveryAwaitMayFail(c: Config, s: State, t: nat)
    requires Inv(c, s) && t < |c|
    ensures match s.pc[t]
      case Waiting(i) =>
        (Enabled(c, s, t, CancelWait) <==> i < |c[t].plan|) && (Enabled(c, s, t, PrepareFails) <==> i == |c[t].plan|)
      case Notifying(_) => Enabled(c, s, t, NotifyFails)
      case AtGate => Enabled(c, s, t, CancelAtGate)
      case InBody => Enabled(c, s, t, CancelLeave) <==> c[t].capture
      case Unlocking(_) => Enabled(c, s, t, CancelUnlock)
      case _ => forall a | a in {NotifyFails, CancelWait, PrepareFails, CancelAtGate, CancelLeave, CancelUnlock} ::
                  !Enabled(c, s, t, a)
  {
    assert WellPlaced(c[t], s.pc[t]);
  }

  lemma PrefixGrows(t: Task, n: nat)
    requires Climbs(t.plan) && n < |t.plan|
    ensures t.plan[n] !in Prefix(t.plan, n)
    ensures Prefix(t.plan, n + 1) == Prefix(t.plan, n) + {t.plan[n]}
    ensures t.plan[n].Shared? ==> t.plan[n].key !in PrefixKeys(t.plan, n)
    ensures PrefixKeys(t.plan, n + 1) ==
            PrefixKeys(t.plan, n) + if t.plan[n].Shared? then {t.plan[n].key} else {}
  {
    forall j | 0 <= j < n ensures t.plan[j] != t.plan[n] {
      assert Lower(t.plan[j], t.plan[n]);
      LowerIrreflexive(t.plan[n]);
    }
  }

  lemma TracksTaken<R(!new)>(owner: map<R, nat>, has: seq<set<R>>, t: nat, r: R)
    requires Tracks(owner, has) && t < |has| && r !in owner
    ensures Tracks(owner[r := t], has[t := has[t] + {r}])
  {
  }

  lemma TracksDropped<R(!new)>(owner: map<R, nat>, has: seq<set<R>>, t: nat, r: R)
    requires Tracks(owner, has) && t < |has| && r in has[t]
    ensures Tracks(Without(owner, r), has[t := has[t] - {r}])
  {
    var owner', has' := Without(owner, r), has[t := has[t] - {r}];
    assert owner[r] == t;
    forall u, x | 0 <= u < |has'| && x in has'[u] ensures x in owner' && owner'[x] == u {
      assert x in has[u];
    }
  }

  /** `s'` moves task `t` only, to `pc'`. */
  ghost predicate Moves(c: Config, s: State, s': State, t: nat, pc': Pc) {
    |s.pc| == |c| && t < |c| && s'.pc == s.pc[t := pc']
  }

  /** Task `t` takes the next resource of its plan, gives back its last, or neither. */
  ghost predicate OwnerMoves(c: Config, s: State, s': State, t: nat, pc': Pc)
    requires t < |c| == |s.pc|
  {
    var plan, n, n' := c[t].plan, HeldCount(c[t], s.pc[t]), HeldCount(c[t], pc');
    || (n' == n && s'.owner == s.owner)
    || (n' == n + 1 <= |plan| && plan[n] !in s.owner && s'.owner == s.owner[plan[n] := t])
    || (n == n' + 1 <= |plan| && s'.owner == Without(s.owner, plan[n']))
  }

  lemma OwnerAfter(c: Config, s: State, s': State, t: nat, pc': Pc)
    requires Moves(c, s, s', t, pc') && Climbs(c[t].plan) && Tracks(s.owner, HeldByTask(c, s))
    requires OwnerMoves(c, s, s', t, pc')
    ensures Tracks(s'.owner, HeldByTask(c, s'))
  {
    var plan, n, n', held := c[t].plan, HeldCount(c[t], s.pc[t]), HeldCount(c[t], pc'), HeldByTask(c, s);
    assert HeldByTask(c, s') == held[t := Prefix(plan, n')];
    if n' == n {
      assert held == held[t := held[t]];
    } else if n' == n + 1 {
      PrefixGrows(c[t], n);
      TracksTaken(s.owner, held, t, plan[n]);
    } else {
      PrefixGrows(c[t], n');
      TracksDropped(s.owner, held, t, plan[n']);
    }
  }

  /** The same for `locking_task`, which serial locks do not have. */
  ghost predicate LabelMoves(c: Config, s: State, s': State, t: nat, pc': Pc)
    requires t < |c| == |s.pc|
  {
    var plan, n, n' := c[t].plan, LabelCount(c[t], s.pc[t]), LabelCount(c[t], pc');
    || (n' == n && s'.locking == s.locking)
    || (n' == n + 1 <= |plan| && plan[n].Serial? && s'.locking == s.locking)
    || (n == n' + 1 <= |plan| && plan[n'].Serial? && s'.locking == s.locking)
    || (n' == n + 1 <= |plan| && plan[n].Shared? && plan[n] !in s.owner && s'.locking == s.locking[plan[n].key := t])
    || (n == n' + 1 <= |plan| && plan[n'].Shared? && s'.locking == Without(s.locking, plan[n'].key))
  }

  lemma LabelsAfter(c: Config, s: State, s': State, t: nat, pc': Pc)
    requires Moves(c, s, s', t, pc') && Climbs(c[t].plan) && Inv(c, s)
    requires LabelMoves(c, s, s', t, pc')
    ensures Tracks(s'.locking, LabelledByTask(c, s'))
  {
    var plan, n, n', has := c[t].plan, LabelCount(c[t], s.pc[t]), LabelCount(c[t], pc'), LabelledByTask(c, s);
    assert LabelledByTask(c, s') == has[t := PrefixKeys(plan, n')];
    assert has[t] == PrefixKeys(plan, n);
    if n' == n + 1 {
      PrefixGrows(c[t], n);
      if plan[n].Shared? {
        FreeKeyUnlabelled(c, s, plan[n].key);
      }
    } else if n == n' + 1 {
      PrefixGrows(c[t], n');
    }
    LabelsMoved(s.locking, s'.locking, has, t, PrefixKeys(plan, n'),
                if n < |plan| && plan[n].Shared? then plan[n].key else "",
                if n' < |plan| && plan[n'].Shared? then plan[n'].key else "");
  }

  lemma LabelsMoved(locking: map<string, nat>, locking': map<string, nat>, has: seq<set<string>>, t: nat,
                    keys: set<string>, taken: string, dropped: string)
    requires Tracks(locking, has) && t < |has|
    requires || (keys == has[t] && locking' == locking)
             || (taken !in locking && keys == has[t] + {taken} && locking' == locking[taken := t])
             || (dropped in has[t] && keys == has[t] - {dropped} && locking' == Without(locking, dropped))
    ensures Tracks(locking', has[t := keys])
  {
    if keys == has[t] && locking' == locking {
      assert has[t := keys] == has;
    } else if taken !in locking && keys == has[t] + {taken} && locking' == locking[taken := t] {
      TracksTaken(locking, has, t, taken);
    } else {
      TracksDropped(locking, has, t, dropped);
    }
  }

  lemma LabelledAreHeld(t: Task, pc: Pc, k: string)
    requires k in Labelled(t, pc)
    ensures Shared(k) in Held(t, pc)
  {
    var j :| 0 <= j < LabelCount(t, pc) && j < |t.plan| && t.plan[j].Shared? && t.plan[j].key == k;
    assert t.plan[j] == Shared(k);
  }

  /** What a task holds is recorded as its own. */
  lemma HeldIsOwned(c: Config, s: State, t: nat, r: Resource)
    requires Inv(c, s) && t < |c| && r in Held(c[t], s.pc[t])
    ensures r in s.owner && s.owner[r] == t
  {
    assert r in HeldByTask(c, s)[t];
  }

  /** What is locked is held by the one task recorded as its owner. */
  lemma OwnerHolds(c: Config, s: State, r: Resource)
    requires Inv(c, s) && r in s.owner
    ensures s.owner[r] < |c| && r in Held(c[s.owner[r]], s.pc[s.owner[r]])
  {
    assert r in HeldByTask(c, s)[s.owner[r]];
  }

  /** A `locking_task` that is not `None` names the task that holds the lock. */
  lemma LabelNamesHolder(c: Config, s: State, k: string)
    requires Inv(c, s) && k in s.locking
    ensures Shared(k) in s.owner && s.owner[Shared(k)] == s.locking[k]
  {
    var u := s.locking[k];
    assert k in LabelledByTask(c, s)[u];
    LabelledAreHeld(c[u], s.pc[u], k);
    HeldIsOwned(c, s, u, Shared(k));
  }

  /** A free key has no `locking_task`. */
  lemma FreeKeyUnlabelled(c: Config, s: State, k: string)
    requires Inv(c, s) && Shared(k) !in s.owner
    ensures k !in s.locking
  {
    if k in s.locking {
      LabelNamesHolder(c, s, k);
      assert false;
    }
  }

  lemma PlacedAfter(c: Config, s: State, t: nat, a: Action)
    requires Placed(c, s) && Enabled(c, s, t, a)
    ensures var s' := Step(c, s, t, a); Moves(c, s, s', t, s'.pc[t]) && Placed(c, s')
  {
    StepMovesOne(c, s, t, a);
    GateAfter(c, s, t, a);
  }

  lemma StepMovesOne(c: Config, s: State, t: nat, a: Action)
    requires Placed(c, s) && Enabled(c, s, t, a)
    ensures var s' := Step(c, s, t, a); Moves(c, s, s', t, s'.pc[t]) && WellPlaced(c[t], s'.pc[t])
  {
    match a
    case Take =>
    case CancelUnlock =>
    case _ =>
  }

  lemma GateAfter(c: Config, s: State, t: nat, a: Action)
    requires Placed(c, s) && Enabled(c, s, t, a)
    ensures GateNames(c, Step(c, s, t, a))
    ensures GateIsHeld(c, s) && a != CancelLeave ==> GateIsHeld(c, Step(c, s, t, a))
  {
    match a
    case Enter =>
    case Leave =>
    case _ =>
  }

  /** The two cancellations that give up what nobody else can give back. */
  predicate Abandons(a: Action) {
    a == CancelUnlock || a == CancelLeave
  }

  lemma StepMoves(c: Config, s: State, t: nat, a: Action)
    requires Placed(c, s) && Enabled(c, s, t, a) && !Abandons(a)
    ensures OwnerMoves(c, s, Step(c, s, t, a), t, Step(c, s, t, a).pc[t])
    ensures LabelMoves(c, s, Step(c, s, t, a), t, Step(c, s, t, a).pc[t])
  {
    OwnerStep(c, s, t, a);
    LabelStep(c, s, t, a);
  }

  lemma OwnerStep(c: Config, s: State, t: nat, a: Action)
    requires Placed(c, s) && Enabled(c, s, t, a) && !Abandons(a)
    ensures OwnerMoves(c, s, Step(c, s, t, a), t, Step(c, s, t, a).pc[t])
  {
    match a
    case Take =>
    case NotifyFails =>
    case Unlock =>
    case UnlockDone =>
    case _ =>
  }

  lemma LabelStep(c: Config, s: State, t: nat, a: Action)
    requires Placed(c, s) && Enabled(c, s, t, a) && !Abandons(a)
    ensures LabelMoves(c, s, Step(c, s, t, a), t, Step(c, s, t, a).pc[t])
  {
    match a
    case Take =>
    case NotifyFails =>
    case Unlock =>
    case UnlockDone =>
    case _ =>
  }

  /** Every step but a cancelled release keeps the invariant, failures included. */
  lemma StepKeepsInv(c: Config, s: State, t: nat, a: Action)
    requires AllClimb(c) && Inv(c, s) && Enabled(c, s, t, a) && !Abandons(a)
    ensures Inv(c, Step(c, s, t, a))
  {
    PlacedAfter(c, s, t, a);
    GateAfter(c, s, t, a);
    StepMoves(c, s, t, a);
    MovesKeepInv(c, s, Step(c, s, t, a), t);
  }

  lemma MovesKeepInv(c: Config, s: State, s': State, t: nat)
    requires AllClimb(c) && Inv(c, s) && t < |c| && Placed(c, s') && GateIsHeld(c, s') && Moves(c, s, s', t, s'.pc[t])
    requires OwnerMoves(c, s, s', t, s'.pc[t]) && LabelMoves(c, s, s', t, s'.pc[t])
    ensures Inv(c, s')
  {
    OwnerAfter(c, s, s', t, s'.pc[t]);
    LabelsAfter(c, s, s', t, s'.pc[t]);
  }

  lemma InitInv(c: Config)
    ensures Inv(c, Init(c))
  {
  }

  // ---------------------------------------------------------------- no deadlock

  /** Task `t` is blocked on `r`. */
  predicate WaitsFor(c: Config, s: State, t: nat, r: Resource) {
    t < |c| == |s.pc| && s.pc[t].Waiting? && s.pc[t].i < |c[t].plan| && c[t].plan[s.pc[t].i] == r && r in s.owner
  }

  lemma LowerTransitive(a: Resource, b: Resource, x: Resource)
    requires Lower(a, b) && Lower(b, x)
    ensures Lower(a, x)
  {
    if a.Shared? {
      BelowTransitive(a.key, b.key, x.key);
    }
  }

  /** Whoever holds what `t` waits for can only be waiting for something higher. */
  lemma WaitsClimb(c: Config, s: State, t: nat, r: Resource, r': Resource)
    requires AllClimb(c) && Inv(c, s) && WaitsFor(c, s, t, r) && WaitsFor(c, s, s.owner[r], r')
    ensures Lower(r, r')
  {
    var u := s.owner[r];
    assert r in HeldByTask(c, s)[u];
  }

  /** `ts[i]` waits for `rs[i]`, which `ts[i + 1]` holds. */
  ghost predicate WaitChain(c: Config, s: State, ts: seq<nat>, rs: seq<Resource>) {
    |ts| == |rs| + 1 && forall i :: 0 <= i < |rs| ==> WaitsFor(c, s, ts[i], rs[i]) && s.owner[rs[i]] == ts[i + 1]
  }

  lemma {:induction false} ChainClimbs(c: Config, s: State, ts: seq<nat>, rs: seq<Resource>, n: nat)
    requires AllClimb(c) && Inv(c, s) && WaitChain(c, s, ts, rs) && 0 < n < |rs|
    ensures Lower(rs[0], rs[n])
  {
    assert WaitsFor(c, s, ts[n - 1], rs[n - 1]) && WaitsFor(c, s, ts[n], rs[n]);
    WaitsClimb(c, s, ts[n - 1], rs[n - 1], rs[n]);
    if n > 1 {
      ChainClimbs(c, s, ts, rs, n - 1);
      LowerTransitive(rs[0], rs[n - 1], rs[n]);
    }
  }

  /** No chain of waiting tasks, of any length, closes into a cycle. */
  lemma NoWaitCycle(c: Config, s: State, ts: seq<nat>, rs: seq<Resource>)
    requires AllClimb(c) && Inv(c, s) && WaitChain(c, s, ts, rs) && rs != []
    ensures ts[|rs|] != ts[0]
  {
    var last := |rs| - 1;
    assert WaitsFor(c, s, ts[last], rs[last]) && WaitsFor(c, s, ts[0], rs[0]);
    if ts[|rs|] == ts[0] {
      WaitsClimb(c, s, ts[last], rs[last], rs[0]);
      if last > 0 {
        ChainClimbs(c, s, ts, rs, last);
        LowerTransitive(rs[0], rs[last], rs[0]);
      }
      LowerIrreflexive(rs[0]);
    }
  }

  /** What is taken at or above the rank a task waits at. */
  ghost function Ahead(c: Config, s: State, t: nat): set<Resource>
    requires t < |c| == |s.pc|
  {
    if s.pc[t].Waiting? && s.pc[t].i < |c[t].plan| then
      set x | x in s.owner && (x == c[t].plan[s.pc[t].i] || Lower(c[t].plan[s.pc[t].i], x))
    else
      {}
  }

  /** Following the waits from any unfinished task ends in one that can go on without any failure. */
  lemma {:induction false} FindRunnable(c: Config, s: State, t: nat) returns (u: nat, a: Action)
    requires AllClimb(c) && Inv(c, s) && t < |c| && s.pc[t] != Finished
    ensures Progress(a) && Enabled(c, s, u, a)
    decreases Ahead(c, s, t)
  {
    var pc, plan := s.pc[t], c[t].plan;
    if pc.Waiting? && pc.i < |plan| && plan[pc.i] in s.owner {
      var r := plan[pc.i];
      var h := s.owner[r];
      assert r in HeldByTask(c, s)[h];
      if s.pc[h].Waiting? && s.pc[h].i < |c[h].plan| {
        var r' := c[h].plan[s.pc[h].i];
        assert Lower(r, r');
        LowerIrreflexive(r);
        forall x | x in Ahead(c, s, h) ensures x in Ahead(c, s, t) && x != r {
          if x != r' {
            LowerTransitive(r, r', x);
          }
        }
        assert r in Ahead(c, s, t);
      } else {
        assert r in Ahead(c, s, t);
      }
      u, a := FindRunnable(c, s, h);
    } else if pc.AtGate? && s.capturer.Some? {
      u, a := s.capturer.value, Leave;
    } else {
      u := t;
      a := match pc
        case Waiting(i) => if i < |plan| then Take else Prepare
        case Notifying(_) => NotifyDone
        case AtGate => Enter
        case InBody => Leave
        case Unwinding(i) => if i == 0 then Finish else Unlock
        case Unlocking(_) => UnlockDone
        case Finished => Finish;
    }
  }

  // ---------------------------------------------------------------- every schedule ends

  function Weight(t: Task, pc: Pc): int {
    var n := |t.plan|;
    match pc
    case Waiting(i) => 4 * n + 4 - 2 * i
    case Notifying(i) => 4 * n + 3 - 2 * i
    case AtGate => 2 * n + 3
    case InBody => 2 * n + 2
    case Unwinding(i) => 2 * i + 1
    case Unlocking(i) => 2 * i
    case Finished => 0
  }

  function Total(c: Config, pc: seq<Pc>): int
    requires |pc| == |c|
  {
    if c == [] then 0 else Weight(c[0], pc[0]) + Total(c[1..], pc[1..])
  }

  lemma {:induction false} TotalUpdate(c: Config, pc: seq<Pc>, t: nat, pc': Pc)
    requires t < |c| == |pc|
    ensures Total(c, pc[t := pc']) == Total(c, pc) - Weight(c[t], pc[t]) + Weight(c[t], pc')
  {
    if t == 0 {
      assert pc[t := pc'][1..] == pc[1..];
    } else {
      assert pc[t := pc'][1..] == pc[1..][t - 1 := pc'];
      TotalUpdate(c[1..], pc[1..], t - 1, pc');
    }
  }

  lemma {:induction false} TotalNat(c: Config, pc: seq<Pc>)
    requires |pc| == |c| && forall t :: 0 <= t < |c| ==> WellPlaced(c[t], pc[t])
    ensures 0 <= Total(c, pc)
  {
    if c != [] {
      TotalNat(c[1..], pc[1..]);
    }
  }

  lemma StepSpends(c: Config, s: State, t: nat, a: Action)
    requires Placed(c, s) && Enabled(c, s, t, a)
    ensures Total(c, Step(c, s, t, a).pc) < Total(c, s.pc)
  {
    StepMovesOne(c, s, t, a);
    TotalUpdate(c, s.pc, t, Step(c, s, t, a).pc[t]);
    WeightDrops(c, s, t, a);
  }

  lemma WeightDrops(c: Config, s: State, t: nat, a: Action)
    requires Placed(c, s) && Enabled(c, s, t, a)
    ensures Weight(c[t], Step(c, s, t, a).pc[t]) < Weight(c[t], s.pc[t])
  {
  }

  type Run = seq<(nat, Action)>

  ghost predicate Legal(c: Config, s: State, run: Run)
    decreases run
  {
    run == [] ||
    (Enabled(c, s, run[0].0, run[0].1) && Legal(c, Step(c, s, run[0].0, run[0].1), run[1..]))
  }

  ghost function End(c: Config, s: State, run: Run): State
    requires Legal(c, s, run)
    decreases run
  {
    if run == [] then s else End(c, Step(c, s, run[0].0, run[0].1), run[1..])
  }

  /** No release, of a lock or of the gate, is cancelled along the way. */
  ghost predicate Clean(run: Run) {
    forall i :: 0 <= i < |run| ==> !Abandons(run[i].1)
  }

  /** Every schedule is finite, whatever fails: its length is bounded by the work at the start. */
  lemma {:induction false} EveryScheduleEnds(c: Config, s: State, run: Run)
    requires Placed(c, s) && Legal(c, s, run)
    ensures Placed(c, End(c, s, run))
    ensures 0 <= Total(c, End(c, s, run).pc) <= Total(c, s.pc) - |run|
    decreases run
  {
    if run == [] {
      TotalNat(c, s.pc);
    } else {
      PlacedAfter(c, s, run[0].0, run[0].1);
      StepSpends(c, s, run[0].0, run[0].1);
      EveryScheduleEnds(c, Step(c, s, run[0].0, run[0].1), run[1..]);
    }
  }

  lemma {:induction false} CleanRunKeepsInv(c: Config, s: State, run: Run)
    requires AllClimb(c) && Inv(c, s) && Legal(c, s, run) && Clean(run)
    ensures Inv(c, End(c, s, run))
    decreases run
  {
    if run != [] {
      assert !Abandons(run[0].1);
      StepKeepsInv(c, s, run[0].0, run[0].1);
      assert forall i :: 0 <= i < |run[1..]| ==> run[1..][i] == run[i + 1];
      CleanRunKeepsInv(c, Step(c, s, run[0].0, run[0].1), run[1..]);
    }
  }

  ghost predicate AllFinished(s: State) {
    forall t :: 0 <= t < |s.pc| ==> s.pc[t].Finished?
  }

  ghost predicate AllFree(s: State) {
    s.owner == map[] && s.locking == map[] && s.capturer == None
  }

  /** When every task is finished, every serial lock, every key and the capture gate are free. */
  lemma FinishedMeansFree(c: Config, s: State)
    requires Inv(c, s) && AllFinished(s)
    ensures AllFree(s)
  {
    if r :| r in s.owner {
      OwnerHolds(c, s, r);
      assert false;
    }
    if k :| k in s.locking {
      LabelNamesHolder(c, s, k);
      assert false;
    }
  }

  /** A clean run that can go no further without a failure has finished everything and freed everything. */
  lemma MaximalRunFinishes(c: Config, run: Run)
    requires AllClimb(c) && Legal(c, Init(c), run) && Clean(run)
    requires forall t, a :: Progress(a) ==> !Enabled(c, End(c, Init(c), run), t, a)
    ensures AllFinished(End(c, Init(c), run)) && AllFree(End(c, Init(c), run))
  {
    var s := End(c, Init(c), run);
    InitInv(c);
    CleanRunKeepsInv(c, Init(c), run);
    NeverStuck(c, run);
    FinishedMeansFree(c, s);
  }

  // ---------------------------------------------------------------- exclusion

  /** Two assignments that share a serial actor or a key are never both past acquiring it. */
  lemma HoldersExclude(c: Config, s: State, t: nat, u: nat, r: Resource)
    requires Inv(c, s) && t < |c| && u < |c| && t != u
    requires r in Held(c[t], s.pc[t])
    ensures r !in Held(c[u], s.pc[u])
    ensures r in s.owner && s.owner[r] == t
  {
    HeldIsOwned(c, s, t, r);
    if r in Held(c[u], s.pc[u]) {
      HeldIsOwned(c, s, u, r);
    }
  }

  /** Assignments of one serial actor never overlap, and neither do captures. */
  lemma BodiesExclude(c: Config, s: State, t: nat, u: nat)
    requires Inv(c, s) && t < |c| && u < |c| && t != u && s.pc[t].InBody? && s.pc[u].InBody?
    ensures forall r :: r in c[t].plan ==> r !in c[u].plan
    ensures !(c[t].capture && c[u].capture)
  {
    forall r | r in c[t].plan && r in c[u].plan ensures false {
      HoldersExclude(c, s, t, u, r);
    }
  }

  /** In every clean schedule, tasks that share a serial actor or a key are never in their bodies together. */
  lemma SharedResourceExcludes(c: Config, run: Run, t: nat, u: nat, r: Resource)
    requires AllClimb(c) && Legal(c, Init(c), run) && Clean(run)
    requires t < |c| && u < |c| && t != u && r in c[t].plan && r in c[u].plan
    ensures var s := End(c, Init(c), run); |s.pc| == |c| && !(s.pc[t].InBody? && s.pc[u].InBody?)
  {
    InitInv(c);
    CleanRunKeepsInv(c, Init(c), run);
    var s := End(c, Init(c), run);
    if s.pc[t].InBody? && s.pc[u].InBody? {
      BodiesExclude(c, s, t, u);
    }
  }

  /** From when a capture starts to when it leaves, nobody enters a body. */
  lemma {:induction false} NobodyEntersDuringCapture(c: Config, s: State, run: Run, t: nat)
    requires Placed(c, s) && s.capturer == Some(t) && Legal(c, s, run)
    requires forall i :: 0 <= i < |run| ==> run[i] != (t, Leave)
    ensures forall i :: 0 <= i < |run| ==> run[i].1 != Enter
    ensures End(c, s, run).capturer == Some(t)
    decreases run
  {
    if run != [] {
      var s' := Step(c, s, run[0].0, run[0].1);
      PlacedAfter(c, s, run[0].0, run[0].1);
      assert run[0] != (t, Leave);
      assert s'.capturer == Some(t);
      assert forall i :: 0 <= i < |run[1..]| ==> run[1..][i] == run[i + 1];
      NobodyEntersDuringCapture(c, s', run[1..], t);
      assert forall i :: 0 < i < |run| ==> run[i] == run[1..][i - 1];
    }
  }

  /** In every clean schedule, two captures are never in their bodies together. */
  lemma CapturesExclude(c: Config, run: Run, t: nat, u: nat)
    requires AllClimb(c) && Legal(c, Init(c), run) && Clean(run)
    requires t < |c| && u < |c| && t != u && c[t].capture && c[u].capture
    ensures var s := End(c, Init(c), run); |s.pc| == |c| && !(s.pc[t].InBody? && s.pc[u].InBody?)
  {
    InitInv(c);
    CleanRunKeepsInv(c, Init(c), run);
    var s := End(c, Init(c), run);
    if s.pc[t].InBody? && s.pc[u].InBody? {
      BodiesExclude(c, s, t, u);
    }
  }

  /** No task but `t` is in its body. */
  ghost predicate Alone(s: State, t: nat) {
    forall u :: 0 <= u < |s.pc| && u != t ==> !s.pc[u].InBody?
  }

  lemma {:induction false} AloneStays(c: Config, s: State, run: Run, t: nat)
    requires Placed(c, s) && s.capturer == Some(t) && Legal(c, s, run) && (t, Leave) !in run && Alone(s, t)
    ensures Alone(End(c, s, run), t)
    decreases run
  {
    if run != [] {
      var s' := Step(c, s, run[0].0, run[0].1);
      PlacedAfter(c, s, run[0].0, run[0].1);
      assert run[0] in run;
      AloneStays(c, s', run[1..], t);
    }
  }

  /** A capture has its body to itself, whatever happens until it leaves, if and only if no other task is in its
      body when it enters: the gate does not wait for those. */
  lemma {:induction false} CaptureExclusiveIff(c: Config, s: State, t: nat)
    requires Placed(c, s) && Enabled(c, s, t, Enter) && c[t].capture
    ensures var s' := Step(c, s, t, Enter);
      (forall run :: Legal(c, s', run) && (t, Leave) !in run ==> Alone(End(c, s', run), t)) <==> Alone(s, t)
  {
    var s' := Step(c, s, t, Enter);
    PlacedAfter(c, s, t, Enter);
    if Alone(s, t) {
      forall run | Legal(c, s', run) && (t, Leave) !in run ensures Alone(End(c, s', run), t) {
        AloneStays(c, s', run, t);
      }
    } else {
      var u :| 0 <= u < |s.pc| && u != t && s.pc[u].InBody?;
      assert s'.pc[u].InBody?;
      assert Legal(c, s', []) && End(c, s', []) == s';
    }
  }

  lemma ConsRun(c: Config, s: State, t: nat, a: Action, rest: Run)
    requires Enabled(c, s, t, a) && Legal(c, Step(c, s, t, a), rest)
    ensures Legal(c, s, [(t, a)] + rest)
    ensures End(c, s, [(t, a)] + rest) == End(c, Step(c, s, t, a), rest)
  {
    assert ([(t, a)] + rest)[1..] == rest;
  }

  lemma {:induction false} JoinRuns(c: Config, s: State, first: Run, second: Run)
    requires Legal(c, s, first) && Legal(c, End(c, s, first), second)
    ensures Legal(c, s, first + second)
    ensures End(c, s, first + second) == End(c, End(c, s, first), second)
    decreases first
  {
    if first == [] {
      assert first + second == second;
    } else {
      var s' := Step(c, s, first[0].0, first[0].1);
      JoinRuns(c, s', first[1..], second);
      ConsRun(c, s, first[0].0, first[0].1, first[1..] + second);
      assert [(first[0].0, first[0].1)] + (first[1..] + second) == first + second;
    }
  }

  // ---------------------------------------------------------------- a cancelled release

  /** `r` is locked, but no task holds it any more. */
  ghost predicate Leaked(c: Config, s: State, r: Resource) {
    r in s.owner && |s.pc| == |c| && forall t :: 0 <= t < |c| ==> r !in Held(c[t], s.pc[t])
  }

  /** A cancelled unlock notification leaks exactly the keys the sweep had not reached: none if and only
      if it was the last one. The serial lock is never among them. */
  lemma CancelledReleaseLeaks(c: Config, s: State, t: nat)
    requires AllClimb(c) && Inv(c, s) && Enabled(c, s, t, CancelUnlock)
    ensures forall r :: Leaked(c, Step(c, s, t, CancelUnlock), r) <==>
              r in Prefix(c[t].plan, s.pc[t].i - 1) && r.Shared?
    ensures (forall r :: !Leaked(c, Step(c, s, t, CancelUnlock), r)) <==> s.pc[t].i - 1 == SerialCount(c[t])
  {
    var s', plan, i, n := Step(c, s, t, CancelUnlock), c[t].plan, s.pc[t].i, SerialCount(c[t]);
    SerialIsFirst(c[t]);
    forall r ensures Leaked(c, s', r) <==> r in Prefix(plan, i - 1) && r.Shared? {
      if Leaked(c, s', r) {
        OnlySkippedLeak(c, s, t, r);
      } else if r in Prefix(plan, i - 1) && r.Shared? {
        SkippedLeaks(c, s, t, r);
      }
    }
    if n < i - 1 {
      assert plan[n] in Prefix(plan, i - 1);
      assert Leaked(c, s', plan[n]);
    }
  }

  lemma OnlySkippedLeak(c: Config, s: State, t: nat, r: Resource)
    requires AllClimb(c) && Inv(c, s) && Enabled(c, s, t, CancelUnlock) && Leaked(c, Step(c, s, t, CancelUnlock), r)
    ensures r in Prefix(c[t].plan, s.pc[t].i - 1) && r.Shared?
  {
    var s' := Step(c, s, t, CancelUnlock);
    PrefixGrows(c[t], s.pc[t].i - 1);
    SerialIsFirst(c[t]);
    OwnerHolds(c, s, r);
    assert r !in Held(c[s.owner[r]], s'.pc[s.owner[r]]);
  }

  lemma SkippedLeaks(c: Config, s: State, t: nat, r: Resource)
    requires AllClimb(c) && Inv(c, s) && Enabled(c, s, t, CancelUnlock)
    requires r in Prefix(c[t].plan, s.pc[t].i - 1) && r.Shared?
    ensures Leaked(c, Step(c, s, t, CancelUnlock), r)
  {
    var s' := Step(c, s, t, CancelUnlock);
    PrefixGrows(c[t], s.pc[t].i - 1);
    SerialIsFirst(c[t]);
    assert r in Held(c[t], s.pc[t]);
    HeldIsOwned(c, s, t, r);
    forall u | 0 <= u < |c| ensures r !in Held(c[u], s'.pc[u]) {
      if u != t {
        HoldersExclude(c, s, t, u, r);
      }
    }
  }

  lemma SerialIsFirst(t: Task)
    requires Climbs(t.plan)
    ensures forall j :: 0 <= j < |t.plan| ==> (t.plan[j].Serial? <==> j < SerialCount(t))
  {
    forall j | 0 < j < |t.plan| ensures t.plan[j].Shared? {
      assert Lower(t.plan[0], t.plan[j]);
    }
  }

  /** A leaked key stays locked for ever, so no task that needs it ever reaches the gate or its body. */
  lemma {:induction false} LeakIsForever(c: Config, s: State, run: Run, r: Resource)
    requires AllClimb(c) && Placed(c, s) && Leaked(c, s, r) && Legal(c, s, run)
    ensures Leaked(c, End(c, s, run), r)
    ensures forall t :: 0 <= t < |c| && r in c[t].plan ==>
              !End(c, s, run).pc[t].AtGate? && !End(c, s, run).pc[t].InBody?
    decreases run
  {
    if run == [] {
      forall t | 0 <= t < |c| && r in c[t].plan ensures !s.pc[t].AtGate? && !s.pc[t].InBody? {
        assert r !in Held(c[t], s.pc[t]);
      }
    } else {
      var t, a := run[0].0, run[0].1;
      var s' := Step(c, s, t, a);
      PlacedAfter(c, s, t, a);
      LeakSurvives(c, s, t, a, r);
      LeakIsForever(c, s', run[1..], r);
    }
  }

  lemma LeakSurvives(c: Config, s: State, t: nat, a: Action, r: Resource)
    requires AllClimb(c) && Placed(c, s) && Leaked(c, s, r) && Enabled(c, s, t, a)
    ensures Leaked(c, Step(c, s, t, a), r)
  {
    var s' := Step(c, s, t, a);
    LeakNotTouched(c, s, t, a, r);
    forall u | 0 <= u < |c| ensures r !in Held(c[u], s'.pc[u]) {
      assert r !in Held(c[u], s.pc[u]);
    }
  }

  /** A step neither takes nor frees what is locked and not held. */
  lemma LeakNotTouched(c: Config, s: State, t: nat, a: Action, r: Resource)
    requires AllClimb(c) && Placed(c, s) && Leaked(c, s, r) && Enabled(c, s, t, a)
    ensures var s' := Step(c, s, t, a);
      r in s'.owner && s'.pc == s.pc[t := s'.pc[t]] && r !in Held(c[t], s'.pc[t])
  {
    var s', plan, pc := Step(c, s, t, a), c[t].plan, s.pc[t];
    assert r !in Held(c[t], pc);
    if a == Take || a == NotifyFails {
      PrefixGrows(c[t], pc.i);
      assert a == NotifyFails ==> plan[pc.i] in Held(c[t], pc);
    } else if a in {Unlock, UnlockDone, CancelUnlock} {
      PrefixGrows(c[t], pc.i - 1);
      assert plan[pc.i - 1] in Held(c[t], pc);
      SerialIsFirst(c[t]);
    }
    assert Held(c[t], s'.pc[t]) <= Held(c[t], pc) || (a == Take && r != plan[pc.i]);
  }

  // ---------------------------------------------------------------- repeated keys

  /** The tasks can go no further without a failure although not all have finished. */
  ghost predicate Stuck(c: Config, s: State) {
    |s.pc| == |c| && !AllFinished(s) && forall t, a :: Progress(a) ==> !Enabled(c, s, t, a)
  }

  /** Task `t` has taken the first `n` resources of its plan, and nothing else has changed. */
  ghost predicate TookFirst(c: Config, s: State, s': State, t: nat, n: nat) {
    && t < |c| == |s.pc| && s'.pc == s.pc[t := Waiting(n)] && s'.capturer == s.capturer
    && s'.owner.Keys == s.owner.Keys + Prefix(c[t].plan, n)
  }

  /** Nothing fails or is cancelled. */
  ghost predicate Smooth(run: Run) {
    forall i :: 0 <= i < |run| ==> Progress(run[i].1)
  }

  /** While the others stand still, a task takes the first `n` resources of its plan, if they climb and are free. */
  lemma {:induction false} TakeFirst(c: Config, s: State, t: nat, n: nat) returns (run: Run)
    requires t < |c| == |s.pc| && s.pc[t] == Waiting(0) && n <= |c[t].plan| && Climbs(c[t].plan[..n])
    requires Prefix(c[t].plan, n) !! s.owner.Keys
    ensures Legal(c, s, run) && Smooth(run) && TookFirst(c, s, End(c, s, run), t, n)
  {
    if n == 0 {
      run := [];
      assert s.pc[t := Waiting(0)] == s.pc;
    } else {
      assert c[t].plan[..n - 1] == c[t].plan[..n][..n - 1];
      assert Prefix(c[t].plan, n - 1) <= Prefix(c[t].plan, n);
      run := TakeFirst(c, s, t, n - 1);
      var more := TakeNext(c, s, End(c, s, run), t, n);
      JoinRuns(c, s, run, more);
      run := run + more;
    }
  }

  lemma TakeNext(c: Config, s0: State, s: State, t: nat, n: nat) returns (more: Run)
    requires t < |c| && 0 < n <= |c[t].plan| && Climbs(c[t].plan[..n]) && TookFirst(c, s0, s, t, n - 1)
    requires Prefix(c[t].plan, n) !! s0.owner.Keys
    ensures Legal(c, s, more) && Smooth(more) && TookFirst(c, s0, End(c, s, more), t, n)
  {
    var plan, r := c[t].plan, c[t].plan[n - 1];
    forall j | 0 <= j < n - 1 ensures plan[j] != r {
      assert Lower(plan[..n][j], plan[..n][n - 1]);
      LowerIrreflexive(r);
    }
    assert r in Prefix(plan, n);
    var s' := Step(c, s, t, Take);
    if r.Shared? {
      ConsRun(c, s', t, NotifyDone, []);
      ConsRun(c, s, t, Take, [(t, NotifyDone)]);
      more := [(t, Take)] + [(t, NotifyDone)];
    } else {
      ConsRun(c, s, t, Take, []);
      more := [(t, Take)];
    }
    assert Prefix(plan, n) == Prefix(plan, n - 1) + {r};
  }

  lemma FirstRepeat(actor: nat, serial: bool, keys: seq<string>) returns (n: nat)
    requires !NoRepeats(keys)
    ensures var plan := PlanFor(actor, serial, keys);
      n < |plan| && Climbs(plan[..n]) && plan[n] in Prefix(plan, n)
  {
    var plan := PlanFor(actor, serial, keys);
    PlanClimbsIffDistinct(actor, serial, keys);
    var i;
    i, n := FirstDescent(plan);
    NotLowerMeansEqual(actor, serial, keys, i, n);
  }

  lemma {:induction false} FirstDescent(plan: seq<Resource>) returns (i: nat, n: nat)
    requires !Climbs(plan)
    ensures i < n < |plan| && Climbs(plan[..n]) && !Lower(plan[i], plan[n])
  {
    var last := |plan| - 1;
    if Climbs(plan[..last]) {
      n := last;
      forall x, y | 0 <= x < y < last ensures Lower(plan[x], plan[y]) {
        assert plan[..last][x] == plan[x] && plan[..last][y] == plan[y];
      }
      i :| 0 <= i < n && !Lower(plan[i], plan[n]);
    } else {
      i, n := FirstDescent(plan[..last]);
      assert plan[..last][..n] == plan[..n];
    }
  }

  /** A sorted plan never goes down, so it fails to climb only where a key repeats. */
  lemma NotLowerMeansEqual(actor: nat, serial: bool, keys: seq<string>, i: nat, j: nat)
    requires i < j < |PlanFor(actor, serial, keys)|
    requires !Lower(PlanFor(actor, serial, keys)[i], PlanFor(actor, serial, keys)[j])
    ensures PlanFor(actor, serial, keys)[i] == PlanFor(actor, serial, keys)[j]
  {
    var sorted, m := SortOn(keys, k => k), if serial then 1 else 0;
    assert !Below((k => k)(sorted[j - m]), (k => k)(sorted[i - m]));
    NeitherBelow(sorted[i - m], sorted[j - m]);
  }

  lemma NeitherBelow(a: string, b: string)
    requires !Below(a, b) && !Below(b, a)
    ensures a == b
  {
    BelowTotal(a, b);
  }

  /** With climbing plans no clean run gets stuck, whatever other failures it meets. */
  lemma NeverStuck(c: Config, run: Run)
    requires AllClimb(c) && Legal(c, Init(c), run) && Clean(run)
    ensures !Stuck(c, End(c, Init(c), run))
  {
    var s := End(c, Init(c), run);
    InitInv(c);
    CleanRunKeepsInv(c, Init(c), run);
    if t :| 0 <= t < |s.pc| && !s.pc[t].Finished? {
      var u, a := FindRunnable(c, s, t);
    }
  }

  /** What a task counts as held it owns, each once: kept as long as nothing fails, even if plans repeat. */
  ghost predicate Owns(c: Config, s: State) {
    && Placed(c, s)
    && (forall t, j :: 0 <= t < |c| && 0 <= j < HeldCount(c[t], s.pc[t]) ==>
          c[t].plan[j] in s.owner && s.owner[c[t].plan[j]] == t)
    && (forall t, i, j :: 0 <= t < |c| && 0 <= i < j < HeldCount(c[t], s.pc[t]) ==> c[t].plan[i] != c[t].plan[j])
  }

  lemma OwnsMoved(c: Config, s: State, s': State, t: nat)
    requires Owns(c, s) && t < |c| && Placed(c, s') && Moves(c, s, s', t, s'.pc[t]) && OwnerMoves(c, s, s', t, s'.pc[t])
    ensures Owns(c, s')
    ensures forall r :: r in s.owner && s.owner[r] != t ==> r in s'.owner && s'.owner[r] == s.owner[r]
  {
    var plan, n, n' := c[t].plan, HeldCount(c[t], s.pc[t]), HeldCount(c[t], s'.pc[t]);
    if n == n' + 1 && s'.owner != s.owner {
      assert plan[n'] in s.owner && s.owner[plan[n']] == t;
      assert forall j :: 0 <= j < n' ==> plan[j] != plan[n'];
    }
  }

  lemma OwnsKept(c: Config, s: State, t: nat, a: Action)
    requires Owns(c, s) && Enabled(c, s, t, a) && Progress(a)
    ensures Owns(c, Step(c, s, t, a))
    ensures forall r :: r in s.owner && s.owner[r] != t ==>
              r in Step(c, s, t, a).owner && Step(c, s, t, a).owner[r] == s.owner[r]
  {
    PlacedAfter(c, s, t, a);
    StepMoves(c, s, t, a);
    OwnsMoved(c, s, Step(c, s, t, a), t);
  }

  /** A task that waits for what it holds itself waits for ever. */
  lemma {:induction false} WaitsForItself(c: Config, s: State, run: Run, t: nat, n: nat)
    requires Owns(c, s) && Legal(c, s, run) && Smooth(run)
    requires t < |c| && n < |c[t].plan| && s.pc[t] == Waiting(n) && c[t].plan[n] in Prefix(c[t].plan, n)
    ensures |End(c, s, run).pc| == |c| && End(c, s, run).pc[t] == Waiting(n)
    decreases run
  {
    if run != [] {
      var u, a := run[0].0, run[0].1;
      assert Progress(a);
      assert c[t].plan[n] in s.owner && s.owner[c[t].plan[n]] == t;
      OwnsKept(c, s, u, a);
      PlacedAfter(c, s, u, a);
      assert forall i :: 0 <= i < |run[1..]| ==> run[1..][i] == run[i + 1];
      WaitsForItself(c, Step(c, s, u, a), run[1..], t, n);
    }
  }

  lemma {:induction false} SmoothKeepsOwns(c: Config, s: State, run: Run)
    requires Owns(c, s) && Legal(c, s, run) && Smooth(run)
    ensures Owns(c, End(c, s, run))
    decreases run
  {
    if run != [] {
      assert Progress(run[0].1);
      OwnsKept(c, s, run[0].0, run[0].1);
      assert forall i :: 0 <= i < |run[1..]| ==> run[1..][i] == run[i + 1];
      SmoothKeepsOwns(c, Step(c, s, run[0].0, run[0].1), run[1..]);
    }
  }

  /** Any state can be run on without failures until nothing is enabled without one. */
  lemma {:induction false} RunOut(c: Config, s: State) returns (run: Run)
    requires Placed(c, s)
    ensures Legal(c, s, run) && Smooth(run)
    ensures forall u, a :: Progress(a) ==> !Enabled(c, End(c, s, run), u, a)
    decreases Total(c, s.pc)
  {
    TotalNat(c, s.pc);
    run := [];
    if u, a :| Progress(a) && Enabled(c, s, u, a) {
      PlacedAfter(c, s, u, a);
      StepSpends(c, s, u, a);
      var rest := RunOut(c, Step(c, s, u, a));
      ConsRun(c, s, u, a, rest);
      run := [(u, a)] + rest;
    }
  }

  /** An assignment as it is declared. */
  datatype Declared = Declared(actor: nat, serial: bool, keys: seq<string>, capture: bool)

  function TasksFor(ds: seq<Declared>): Config {
    seq(|ds|, i requires 0 <= i < |ds| => Task(PlanFor(ds[i].actor, ds[i].serial, ds[i].keys), ds[i].capture))
  }

  ghost predicate CanStick(c: Config) {
    exists run :: Legal(c, Init(c), run) && Clean(run) && Stuck(c, End(c, Init(c), run))
  }

  /** Repeated keys are not removed when they are declared: any number of tasks can get stuck without a cancelled
      release if and only if some key of some task is repeated. */
  lemma StuckIffRepeated(ds: seq<Declared>)
    ensures CanStick(TasksFor(ds)) <==> exists i :: 0 <= i < |ds| && !NoRepeats(ds[i].keys)
  {
    var c := TasksFor(ds);
    if i :| 0 <= i < |ds| && !NoRepeats(ds[i].keys) {
      var n := FirstRepeat(ds[i].actor, ds[i].serial, ds[i].keys);
      SticksAt(c, i, n);
    } else {
      forall t | 0 <= t < |c| ensures Climbs(c[t].plan) {
        PlanClimbsIffDistinct(ds[t].actor, ds[t].serial, ds[t].keys);
      }
      forall run | Legal(c, Init(c), run) && Clean(run) ensures !Stuck(c, End(c, Init(c), run)) {
        NeverStuck(c, run);
      }
    }
  }

  lemma SticksAt(c: Config, t: nat, n: nat)
    requires t < |c| && n < |c[t].plan| && Climbs(c[t].plan[..n]) && c[t].plan[n] in Prefix(c[t].plan, n)
    ensures CanStick(c)
  {
    var first := TakeFirst(c, Init(c), t, n);
    var s := End(c, Init(c), first);
    SmoothKeepsOwns(c, Init(c), first);
    var rest := RunOut(c, s);
    WaitsForItself(c, s, rest, t, n);
    StuckAfter(c, first, rest);
  }

  lemma StuckAfter(c: Config, first: Run, rest: Run)
    requires Legal(c, Init(c), first) && Smooth(first) && Smooth(rest)
    requires Legal(c, End(c, Init(c), first), rest) && Stuck(c, End(c, End(c, Init(c), first), rest))
    ensures CanStick(c)
  {
    JoinRuns(c, Init(c), first, rest);
    SmoothIsClean(first, rest);
  }

  lemma SmoothIsClean(first: Run, rest: Run)
    requires Smooth(first) && Smooth(rest)
    ensures Clean(first + rest)
  {
  }

  // ---------------------------------------------------------------- captures and normal tasks

  /** A task that finds its plan free and the gate open goes into its body while the others stand still. */
  lemma EnterBody(c: Config, s: State, t: nat) returns (run: Run)
    requires t < |c| == |s.pc| && s.pc[t] == Waiting(0) && Climbs(c[t].plan) && s.capturer.None?
    requires Prefix(c[t].plan, |c[t].plan|) !! s.owner.Keys
    ensures Legal(c, s, run) && Smooth(run)
    ensures var s' := End(c, s, run);
      && s'.pc == s.pc[t := InBody] && s'.capturer == (if c[t].capture then Some(t) else None)
      && s'.owner.Keys == s.owner.Keys + Prefix(c[t].plan, |c[t].plan|)
  {
    var n := |c[t].plan|;
    assert c[t].plan[..n] == c[t].plan;
    var first := TakeFirst(c, s, t, n);
    var s1 := End(c, s, first);
    var s2 := Step(c, s1, t, Prepare);
    ConsRun(c, s2, t, Enter, []);
    ConsRun(c, s1, t, Prepare, [(t, Enter)]);
    JoinRuns(c, s, first, [(t, Prepare)] + [(t, Enter)]);
    run := first + ([(t, Prepare)] + [(t, Enter)]);
  }

  ghost predicate MeetInBodies(c: Config, run: Run, t: nat, u: nat) {
    && Legal(c, Init(c), run) && Clean(run)
    && var s := End(c, Init(c), run);
       t < |s.pc| && u < |s.pc| && s.pc[t].InBody? && s.pc[u].InBody?
  }

  /** Captures are not kept apart from normal tasks: a capture and a normal task are in their bodies together in some
      clean schedule if and only if they share no serial actor and no key. */
  lemma CaptureMeetsNormalIff(c: Config, t: nat, u: nat)
    requires AllClimb(c) && t < |c| && u < |c| && c[t].capture && !c[u].capture
    ensures (exists run :: MeetInBodies(c, run, t, u)) <==> forall r :: r in c[t].plan ==> r !in c[u].plan
  {
    if r :| r in c[t].plan && r in c[u].plan {
      forall run ensures !MeetInBodies(c, run, t, u) {
        if MeetInBodies(c, run, t, u) {
          SharedResourceExcludes(c, run, t, u, r);
        }
      }
    } else {
      var run := BothEnter(c, t, u);
    }
  }

  lemma BothEnter(c: Config, t: nat, u: nat) returns (run: Run)
    requires AllClimb(c) && t < |c| && u < |c| && c[t].capture && !c[u].capture
    requires forall r :: r in c[t].plan ==> r !in c[u].plan
    ensures MeetInBodies(c, run, t, u)
  {
    var first := EnterBody(c, Init(c), u);
    var s := End(c, Init(c), first);
    forall r | r in Prefix(c[t].plan, |c[t].plan|) ensures r !in s.owner.Keys {
      assert r in c[t].plan;
    }
    var second := EnterBody(c, s, t);
    JoinRuns(c, Init(c), first, second);
    run := first + second;
    assert Clean(run);
  }

  // ---------------------------------------------------------------- an abandoned gate

  ghost predicate Past(pc: Pc) {
    pc.Unwinding? || pc.Unlocking? || pc.Finished?
  }

  /** A capture that is cancelled while it opens the gate leaves it shut for ever: nobody enters a body again. */
  lemma {:induction false} AbandonedGateStaysShut(c: Config, s: State, run: Run, t: nat)
    requires Placed(c, s) && t < |c| && s.capturer == Some(t) && Past(s.pc[t]) && Legal(c, s, run)
    ensures forall i :: 0 <= i < |run| ==> run[i].1 != Enter
    ensures End(c, s, run).capturer == Some(t)
    decreases run
  {
    if run != [] {
      var u, a := run[0].0, run[0].1;
      PlacedAfter(c, s, u, a);
      assert a == Leave && c[u].capture ==> u == t;
      AbandonedGateStaysShut(c, Step(c, s, u, a), run[1..], t);
      assert forall i :: 0 < i < |run| ==> run[i] == run[1..][i - 1];
    }
  }

  ghost predicate CanOpen(c: Config, s: State) {
    exists run :: Legal(c, s, run) && End(c, s, run).capturer == None
  }

  lemma OpenNow(c: Config, s: State)
    requires s.capturer == None
    ensures CanOpen(c, s)
  {
    var run: Run := [];
    assert Legal(c, s, run);
  }

  lemma AbandonedNeverOpens(c: Config, s: State, t: nat)
    requires Placed(c, s) && t < |c| && s.capturer == Some(t) && Past(s.pc[t])
    ensures !CanOpen(c, s)
  {
    if run :| Legal(c, s, run) && End(c, s, run).capturer == None {
      AbandonedGateStaysShut(c, s, run, t);
      assert false;
    }
  }

  /** After a capture leaves its body the gate can ever be open again exactly if that leave was not cancelled. */
  lemma GateOpensIff(c: Config, s: State, t: nat, a: Action)
    requires Placed(c, s) && t < |c| && c[t].capture && (a == Leave || a == CancelLeave) && Enabled(c, s, t, a)
    ensures CanOpen(c, Step(c, s, t, a)) <==> a == Leave
  {
    PlacedAfter(c, s, t, a);
    if a == Leave {
      OpenNow(c, Step(c, s, t, a));
    } else {
      AbandonedNeverOpens(c, Step(c, s, t, a), t);
    }
  }
}
