/** From an observed state to the agent's copy of it: mutations queue patches that refer to live values
    (rekuest_next/state/observable.py), and the patch processor shrinks each value when its turn comes
    (`_aprocess_patch_event`, rekuest_next/agents/base.py). */
module StateSync {
  import opened Prelude
  import opened JsonPointer
  import opened JsonPatch
  import opened ObservedState
  import opened Shrinking
  import LiveQueue
  import Ports
  import Replication
  import StalePaths

  type Effect = LiveQueue.Effect
  type Ref<V> = LiveQueue.Ref<V>

  /** What a queued patch holds: a path, the port its value is to be shrunk with, and the value. */
  datatype Waiting = Waiting(path: string, port: Option<Port>, ref: Ref<Node>)

  /** An observed state, the queued patches with what they did to it, and the agent. */
  datatype Sys = Sys(tree: Node, fs: seq<Effect>, ws: seq<Waiting>, agent: Replication.Agent)

  datatype Schema = Schema(interface: string, top: seq<Port>, interval: int)

  // ---------------------------------------------------------------- mutations

  /** The number that a bool or an int is. */
  function NumberOf(v: Scalar): Option<int> {
    match v
    case BoolV(b) => Some(if b then 1 else 0)
    case IntV(n) => Some(n)
    case _ => None
  }

  /** `==`; an evented dataclass has a class of its own, so it equals only itself. */
  predicate Equal(a: Node, b: Node)
    decreases a
  {
    match (a, b)
    case (Leaf(v), Leaf(w)) => v == w || (NumberOf(v).Some? && NumberOf(v) == NumberOf(w))
    case (List(_, _, xs), List(_, _, ys)) => |xs| == |ys| && forall i :: 0 <= i < |xs| ==> Equal(xs[i], ys[i])
    case (Dict(_, _, xs), Dict(_, _, ys)) => xs.Keys == ys.Keys && forall k :: k in xs ==> Equal(xs[k], ys[k])
    case (Data(_, evented, _, _, _), Data(_, _, _, _, _)) => evented && a == b
    case _ => false
  }

  /** An attribute set to an equal value is not published, and not set. */
  predicate Ignored(c: Node, ch: Change)
    requires Applies(c, ch)
  {
    ch.SetAttr? && Equal(if ch.key in c.fields then c.fields[ch.key] else Leaf(NoneV), ch.n)
  }

  /** A value as `==` sees it: a bool is its number, and containers but dataclasses are what they hold. */
  function Normed(n: Node): Node
    decreases n
  {
    match n
    case Leaf(v) => if v.BoolV? then Leaf(IntV(if v.b then 1 else 0)) else n
    case List(_, _, items) => List("", None, seq(|items|, i requires 0 <= i < |items| => Normed(items[i])))
    case Dict(_, _, fields) => Dict("", None, map k | k in fields :: Normed(fields[k]))
    case Data(_, _, _, _, _) => n
  }

  /** The dataclasses that one meets first are evented. */
  predicate Observed(n: Node)
    decreases n
  {
    match n
    case Leaf(_) => true
    case List(_, _, items) => forall i :: 0 <= i < |items| ==> Observed(items[i])
    case Dict(_, _, fields) => forall k :: k in fields ==> Observed(fields[k])
    case Data(_, evented, _, _, _) => evented
  }

  lemma {:induction false} EqualIff(a: Node, b: Node)
    ensures Equal(a, b) <==> Observed(a) && Normed(a) == Normed(b)
    decreases a
  {
    match (a, b)
    case (List(_, _, xs), List(_, _, ys)) => EqualItems(a, b);
    case (Dict(_, _, xs), Dict(_, _, ys)) => EqualEntries(a, b);
    case _ =>
  }

  lemma {:induction false} EqualItems(a: Node, b: Node)
    requires a.List? && b.List?
    ensures Equal(a, b) <==> Observed(a) && Normed(a) == Normed(b)
    decreases a, 0
  {
    var xs, ys := a.items, b.items;
    if |xs| == |ys| {
      forall i | 0 <= i < |xs| ensures Equal(xs[i], ys[i]) <==> Observed(xs[i]) && Normed(xs[i]) == Normed(ys[i]) {
        EqualIff(xs[i], ys[i]);
      }
      if Equal(a, b) {
        assert Normed(a).items == Normed(b).items;
      } else if Observed(a) && Normed(a) == Normed(b) {
        forall i | 0 <= i < |xs| ensures Equal(xs[i], ys[i]) {
          assert Normed(a).items[i] == Normed(b).items[i];
        }
      }
    } else {
      assert |Normed(a).items| == |xs| && |Normed(b).items| == |ys|;
    }
  }

  lemma {:induction false} EqualEntries(a: Node, b: Node)
    requires a.Dict? && b.Dict?
    ensures Equal(a, b) <==> Observed(a) && Normed(a) == Normed(b)
    decreases a, 0
  {
    var xs, ys := a.fields, b.fields;
    assert Normed(a).fields.Keys == xs.Keys && Normed(b).fields.Keys == ys.Keys;
    if xs.Keys == ys.Keys {
      forall k | k in xs ensures Equal(xs[k], ys[k]) <==> Observed(xs[k]) && Normed(xs[k]) == Normed(ys[k]) {
        EqualIff(xs[k], ys[k]);
      }
      if Equal(a, b) {
        assert Normed(a).fields == Normed(b).fields;
      } else if Observed(a) && Normed(a) == Normed(b) {
        forall k | k in xs ensures Equal(xs[k], ys[k]) {
          assert Normed(a).fields[k] == Normed(b).fields[k];
        }
      }
    }
  }

  predicate UnionFree(port: Port)
    decreases port
  {
    !port.kind.UNION? && forall i :: 0 <= i < |port.children| ==> UnionFree(port.children[i])
  }

  /** Equal values become the same through a port without unions. */
  lemma {:induction false} EqualShrinksAlike(port: Port, a: Node, b: Node)
    requires UnionFree(port) && Equal(a, b)
    ensures Shrinkable(port, a) <==> Shrinkable(port, b)
    ensures Shrinkable(port, a) ==> Shrunk(port, a) == Shrunk(port, b)
    decreases a
  {
    match (a, b)
    case (Leaf(v), Leaf(w)) =>
      if v != w {
        assert ShrunkScalar(port, v) == ShrunkScalar(port, w);
      }
    case (List(_, _, xs), List(_, _, ys)) =>
      if port.kind.LIST? && |port.children| == 1 {
        AlikeItems(port, a, b);
      }
    case (Dict(_, _, xs), Dict(_, _, ys)) =>
      if port.kind.DICT? && |port.children| == 1 {
        AlikeEntries(port, a, b);
      }
    case _ =>
  }

  lemma {:induction false} AlikeItems(port: Port, a: Node, b: Node)
    requires UnionFree(port) && Equal(a, b) && a.List? && b.List? && port.kind.LIST? && |port.children| == 1
    ensures Shrinkable(port, a) <==> Shrinkable(port, b)
    ensures Shrinkable(port, a) ==> Shrunk(port, a) == Shrunk(port, b)
    decreases a, 0
  {
    var q := port.children[0];
    forall i | 0 <= i < |a.items|
      ensures Shrinkable(q, a.items[i]) <==> Shrinkable(q, b.items[i])
      ensures Shrinkable(q, a.items[i]) ==> Shrunk(q, a.items[i]) == Shrunk(q, b.items[i])
    {
      EqualShrinksAlike(q, a.items[i], b.items[i]);
    }
    if Shrinkable(port, a) {
      assert Shrunk(port, a).items == Shrunk(port, b).items;
    }
  }

  lemma {:induction false} AlikeEntries(port: Port, a: Node, b: Node)
    requires UnionFree(port) && Equal(a, b) && a.Dict? && b.Dict? && port.kind.DICT? && |port.children| == 1
    ensures Shrinkable(port, a) <==> Shrinkable(port, b)
    ensures Shrinkable(port, a) ==> Shrunk(port, a) == Shrunk(port, b)
    decreases a, 0
  {
    var q := port.children[0];
    forall k | k in a.fields
      ensures Shrinkable(q, a.fields[k]) <==> Shrinkable(q, b.fields[k])
      ensures Shrinkable(q, a.fields[k]) ==> Shrunk(q, a.fields[k]) == Shrunk(q, b.fields[k])
    {
      EqualShrinksAlike(q, a.fields[k], b.fields[k]);
    }
    if Shrinkable(port, a) {
      assert Shrunk(port, a).fields == Shrunk(port, b).fields;
    }
  }

  /** A set that is ignored would not have changed what the state shrinks to, if no union is in the attribute's port. */
  lemma IgnoredLosesNothing(c: Node, ch: Change, q: Port)
    requires Applies(c, ch) && Ignored(c, ch) && Plain(q, c) && Shrinkable(q, c)
    requires OwnPort(q, ch.key).Some? && UnionFree(OwnPort(q, ch.key).value)
    ensures var own := OwnPort(q, ch.key).value;
      && ch.key in c.fields && Shrinkable(own, c.fields[ch.key]) && Shrinkable(own, ch.n)
      && Shrunk(own, ch.n) == Shrunk(own, c.fields[ch.key])
  {
    OwnIsNamed(q, ch.key);
    EqualShrinksAlike(OwnPort(q, ch.key).value, c.fields[ch.key], ch.n);
  }

  /** A union may tell equal values apart, and then the new one is dropped although it is another. */
  lemma UnionsTellApart(name: string)
    ensures var first := Ports.Port("0", Ports.BOOL, false, None, [], []);
      var second := Ports.Port("1", Ports.INT, false, None, [], []);
      var either := Ports.Port(name, Ports.UNION, false, None, [first, second], []);
      var one, yes := Leaf(IntV(1)), Leaf(BoolV(true));
      && Equal(one, yes) && Shrinkable(either, one) && Shrinkable(either, yes)
      && Shrunk(either, one) != Shrunk(either, yes)
  {
    var first := Ports.Port("0", Ports.BOOL, false, None, [], []);
    var second := Ports.Port("1", Ports.INT, false, None, [], []);
    var either := Ports.Port(name, Ports.UNION, false, None, [first, second], []);
    assert Chosen([first, second], Leaf(IntV(1)), 0) == Some(1);
    assert Chosen([first, second], Leaf(BoolV(true)), 0) == Some(0);
    assert Shrunk(either, Leaf(IntV(1))).fields["__use"] == Num(1);
    assert Shrunk(either, Leaf(BoolV(true))).fields["__use"] == Num(0);
  }

  function EffectAt(p: seq<string>, c: Node, ch: Change): Effect
    requires Applies(c, ch)
  {
    LiveQueue.EffectOf(p, Frame(c), AsMutation(ch, Null))
  }

  function NodeNow(tree: Node, r: Ref<Node>): Node {
    match r
    case Live(p) => if NodeAt(tree, p).Some? then NodeAt(tree, p).value else Leaf(NoneV)
    case Gone(n) => n
  }

  function Moved(tree: Node, f: Effect, w: Waiting): Waiting {
    match w.ref
    case Live(p) =>
      var q := LiveQueue.Shift(f, p);
      w.(ref := if q.Some? then LiveQueue.Live(q.value) else LiveQueue.Gone(NodeNow(tree, w.ref)))
    case Gone(_) => w
  }

  function AllMoved(tree: Node, f: Effect, ws: seq<Waiting>): seq<Waiting> {
    seq(|ws|, i requires 0 <= i < |ws| => Moved(tree, f, ws[i]))
  }

  function FoundPort(x: Schema, c: Node, ch: Change): Option<Port>
    requires Applies(c, ch)
  {
    ChildPort(x.top, c.port, KeyOf(c, ch))
  }

  function NewWaiting(x: Schema, c: Node, ch: Change, f: Effect): Waiting
    requires Applies(c, ch)
  {
    Waiting(Emitted(c.path, Frame(c), AsMutation(ch, Null)).path, FoundPort(x, c, ch),
            if f.op.Remove? then LiveQueue.Gone(Leaf(NoneV)) else LiveQueue.Live(LiveQueue.Target(f)))
  }

  predicate CanMutate(s: Sys, p: seq<string>, ch: Change) {
    NodeAt(s.tree, p).Some? && Applies(NodeAt(s.tree, p).value, ch)
  }

  function Mutate(x: Schema, s: Sys, p: seq<string>, ch: Change): Sys
    requires CanMutate(s, p, ch)
  {
    var c := NodeAt(s.tree, p).value;
    if Ignored(c, ch) then s
    else
      var f := EffectAt(p, c, ch);
      Sys(PutNode(s.tree, p, After(x.top, c, ch)), s.fs + [f],
          AllMoved(s.tree, f, s.ws) + [NewWaiting(x, c, ch, f)], s.agent)
  }

  // ---------------------------------------------------------------- the patch processor

  /** A queued patch with its value as it is in `tree`. */
  function Taken(x: Schema, tree: Node, f: Effect, w: Waiting): Replication.QueuedPatch {
    var n := NodeNow(tree, w.ref);
    if !f.op.Remove? && w.port.Some? && Shrinkable(w.port.value, n) then
      Replication.QueuedPatch(x.interface, Patch(f.op, w.path, Shrunk(w.port.value, n)), true)
    else
      Replication.QueuedPatch(x.interface, Patch(f.op, w.path, Null), false)
  }

  function Process(x: Schema, s: Sys): Sys
    requires s.fs != [] && s.ws != []
  {
    Sys(s.tree, s.fs[1..], s.ws[1..],
        Replication.Processed(s.agent, x.interval, Taken(x, s.tree, s.fs[0], s.ws[0])))
  }

  /** The agent after it has processed the queue. */
  function Drain(x: Schema, a: Replication.Agent, fs: seq<Effect>, ws: seq<Waiting>, tree: Node): Replication.Agent
    requires |fs| == |ws|
    decreases fs
  {
    if fs == [] then a
    else Drain(x, Replication.Processed(a, x.interval, Taken(x, tree, fs[0], ws[0])), fs[1..], ws[1..], tree)
  }

  /** One patch after the other. */
  function ProcessAll(x: Schema, s: Sys): Sys
    requires |s.fs| == |s.ws|
    decreases |s.fs|
  {
    if s.fs == [] then s else ProcessAll(x, Process(x, s))
  }

  /** Processing turn by turn leaves an empty queue, the state as it was, and the agent that `Drain` says. */
  lemma {:induction false} ProcessingDrains(x: Schema, s: Sys)
    requires |s.fs| == |s.ws|
    ensures ProcessAll(x, s) == Sys(s.tree, [], [], Drain(x, s.agent, s.fs, s.ws, s.tree))
    decreases |s.fs|
  {
    if s.fs != [] {
      ProcessingDrains(x, Process(x, s));
    }
  }

  predicate Holding(x: Schema, a: Replication.Agent, doc: Json) {
    a.alive && x.interface in a.states && a.states[x.interface] == doc
  }

  /** Once the queue is processed, the agent's copy is the state. */
  predicate CaughtUp(x: Schema, s: Sys)
    requires |s.fs| == |s.ws|
  {
    Shrinkable(Root(x.top), s.tree) && Holding(x, Drain(x, s.agent, s.fs, s.ws, s.tree), Shrunk(Root(x.top), s.tree))
  }

  // ---------------------------------------------------------------- as JSON

  function JsonRef(w: Waiting): Ref<Json> {
    match w.ref
    case Live(p) => LiveQueue.Live(p)
    case Gone(n) =>
      LiveQueue.Gone(if w.port.Some? && Shrinkable(w.port.value, n) then Shrunk(w.port.value, n) else Null)
  }

  function JsonRefs(ws: seq<Waiting>): seq<Ref<Json>> {
    seq(|ws|, i requires 0 <= i < |ws| => JsonRef(ws[i]))
  }

  /** The patch goes where the mutation was, and its value is shrunk as part of the state. */
  ghost predicate Matched(x: Schema, f: Effect, w: Waiting) {
    && Parse(w.path) == Some(f.base + [f.token])
    && (f.inList ==> PortAt(Root(x.top), f.base).Some? && PortAt(Root(x.top), f.base).value.kind.LIST?)
    && (if f.op.Remove? then w.ref.Gone?
        else w.port.Some? && match w.ref
                             case Live(p) => w.port == PortAt(Root(x.top), p)
                             case Gone(n) => Shrinkable(w.port.value, n))
  }

  ghost predicate AllMatched(x: Schema, fs: seq<Effect>, ws: seq<Waiting>) {
    |fs| == |ws| && forall i :: 0 <= i < |ws| ==> Matched(x, fs[i], ws[i])
  }

  lemma {:induction false} HasNode(port: Port, n: Node, p: seq<string>)
    requires Shrinkable(port, n) && At(Shrunk(port, n), p).Some? && PortAt(port, p).Some?
    ensures NodeAt(n, p).Some?
    decreases p
  {
    if p != [] {
      assert Child(Shrunk(port, n), p[0]).Some?;
      assert Plain(port, n);
      ChildShrinks(port, n, p[0]);
      HasNode(OwnPort(port, p[0]).value, NodeChild(n, p[0]).value, p[1..]);
    }
  }

  lemma TakenNow(x: Schema, tree: Node, f: Effect, w: Waiting)
    requires Matched(x, f, w) && Shrinkable(Root(x.top), tree)
    requires w.ref.Live? ==> At(Shrunk(Root(x.top), tree), w.ref.place).Some?
    ensures var v := LiveQueue.Now(Shrunk(Root(x.top), tree), JsonRef(w));
      Taken(x, tree, f, w) ==
        Replication.QueuedPatch(x.interface, Patch(f.op, w.path, if f.op.Remove? then Null else v), !f.op.Remove?)
  {
    if w.ref.Live? {
      HasNode(Root(x.top), tree, w.ref.place);
      ShrunkAt(Root(x.top), tree, w.ref.place);
    }
  }

  lemma RemoveNeedsNone(doc: Json, f: Effect, v: Json, w: Json)
    requires f.op.Remove?
    ensures LiveQueue.Patched(doc, f, v) == LiveQueue.Patched(doc, f, w)
  {
    StalePaths.ApplyAnywhere(doc, f.op, f.base, f.token, v);
    StalePaths.ApplyAnywhere(doc, f.op, f.base, f.token, w);
  }

  lemma ProcessedIs(x: Schema, a: Replication.Agent, q: Replication.QueuedPatch)
    requires x.interval != 0 && a.alive && x.interface in a.states && q.interface == x.interface && q.patch.path != ""
    ensures var a' := Replication.Processed(a, x.interval, q);
      var v := if q.patch.op.Remove? then Null else q.patch.value;
      var doc := ApplyAt(a.states[x.interface], q.patch.op, q.patch.path, v);
      if doc.Some? && (q.patch.op.Remove? || q.port) then
        a'.alive && a'.states == a.states[x.interface := doc.value]
      else
        !a'.alive
  {
  }

  lemma {:induction false} DeadDrains(x: Schema, a: Replication.Agent, fs: seq<Effect>, ws: seq<Waiting>, tree: Node)
    requires |fs| == |ws| && !a.alive
    ensures Drain(x, a, fs, ws, tree) == a
    decreases fs
  {
    if fs != [] {
      DeadDrains(x, a, fs[1..], ws[1..], tree);
    }
  }

  lemma TakenApplies(x: Schema, a: Replication.Agent, f: Effect, w: Waiting, tree: Node)
    requires x.interval != 0 && a.alive && x.interface in a.states && Matched(x, f, w) && Shrinkable(Root(x.top), tree)
    requires w.ref.Live? ==> At(Shrunk(Root(x.top), tree), w.ref.place).Some?
    ensures var b := LiveQueue.Patched(a.states[x.interface], f, LiveQueue.Now(Shrunk(Root(x.top), tree), JsonRef(w)));
      var a' := Replication.Processed(a, x.interval, Taken(x, tree, f, w));
      if b.Some? then a'.alive && a'.states == a.states[x.interface := b.value] else !a'.alive
  {
    var v := LiveQueue.Now(Shrunk(Root(x.top), tree), JsonRef(w));
    TakenNow(x, tree, f, w);
    if f.op.Remove? {
      RemoveNeedsNone(a.states[x.interface], f, v, Null);
    }
    ProcessedIs(x, a, Taken(x, tree, f, w));
  }

  /** Draining the queue is replaying it on the agent's copy. */
  lemma {:induction false} DrainIsReplay(x: Schema, a: Replication.Agent, fs: seq<Effect>, ws: seq<Waiting>, tree: Node)
    requires x.interval != 0 && a.alive && x.interface in a.states && AllMatched(x, fs, ws)
    requires Shrinkable(Root(x.top), tree) && LiveQueue.Located(Shrunk(Root(x.top), tree), JsonRefs(ws))
    ensures var b := LiveQueue.Replay(a.states[x.interface], fs, JsonRefs(ws), Shrunk(Root(x.top), tree));
      var a' := Drain(x, a, fs, ws, tree);
      if b.Some? then a'.alive && a'.states == a.states[x.interface := b.value] else !a'.alive
    decreases fs
  {
    if fs == [] {
      assert a.states[x.interface := a.states[x.interface]] == a.states;
    } else {
      var d, refs := Shrunk(Root(x.top), tree), JsonRefs(ws);
      var a1 := Replication.Processed(a, x.interval, Taken(x, tree, fs[0], ws[0]));
      assert refs[0] == JsonRef(ws[0]) && refs[1..] == JsonRefs(ws[1..]);
      TakenApplies(x, a, fs[0], ws[0], tree);
      if a1.alive {
        DrainIsReplay(x, a1, fs[1..], ws[1..], tree);
      } else {
        DeadDrains(x, a1, fs[1..], ws[1..], tree);
      }
    }
  }

  lemma {:induction false} DrainAppend(x: Schema, a: Replication.Agent, fs: seq<Effect>, ws: seq<Waiting>, tree: Node,
                                       f: Effect, w: Waiting)
    requires |fs| == |ws|
    ensures Drain(x, a, fs + [f], ws + [w], tree) ==
            Replication.Processed(Drain(x, a, fs, ws, tree), x.interval, Taken(x, tree, f, w))
    decreases fs
  {
    if fs == [] {
      assert [] + [f] == [f] && ws + [w] == [w];
    } else {
      assert (fs + [f])[1..] == fs[1..] + [f] && (ws + [w])[1..] == ws[1..] + [w];
      DrainAppend(x, Replication.Processed(a, x.interval, Taken(x, tree, fs[0], ws[0])), fs[1..], ws[1..], tree, f, w);
    }
  }

  // ---------------------------------------------------------------- a mutation and the queue

  lemma {:induction false} PortAppend(port: Port, p: seq<string>, r: seq<string>)
    ensures PortAt(port, p + r) == match PortAt(port, p) case Some(q) => PortAt(q, r) case None => None
    decreases p
  {
    if p == [] {
      assert p + r == r;
    } else {
      assert (p + r)[1..] == p[1..] + r;
      if OwnPort(port, p[0]).Some? {
        PortAppend(OwnPort(port, p[0]).value, p[1..], r);
      }
    }
  }

  /** Items of a list are shrunk with one port, so moving them changes nothing. */
  lemma PortShifts(root: Port, f: Effect, p: seq<string>)
    requires f.inList ==> PortAt(root, f.base).Some? && PortAt(root, f.base).value.kind.LIST?
    requires LiveQueue.Shift(f, p).Some?
    ensures PortAt(root, LiveQueue.Shift(f, p).value) == PortAt(root, p)
  {
    var q, n := LiveQueue.Shift(f, p).value, |f.base|;
    if !LiveQueue.InsertsOrDeletes(f) {
      LiveQueue.SetShifts(f, p);
    } else if f.base < p {
      assert p == f.base + p[n..] && q == f.base + q[n..];
      PortAppend(root, f.base, p[n..]);
      PortAppend(root, f.base, q[n..]);
      assert p[n..][1..] == q[n..][1..];
    }
  }

  lemma MovedMatched(x: Schema, tree: Node, f: Effect, g: Effect, w: Waiting)
    requires Matched(x, g, w) && Shrinkable(Root(x.top), tree)
    requires f.inList ==> PortAt(Root(x.top), f.base).Some? && PortAt(Root(x.top), f.base).value.kind.LIST?
    requires w.ref.Live? ==> At(Shrunk(Root(x.top), tree), w.ref.place).Some?
    ensures Matched(x, g, Moved(tree, f, w))
    ensures JsonRef(Moved(tree, f, w)) == LiveQueue.MovedRef(Shrunk(Root(x.top), tree), f, JsonRef(w))
  {
    if w.ref.Live? {
      var p := w.ref.place;
      HasNode(Root(x.top), tree, p);
      ShrunkAt(Root(x.top), tree, p);
      if LiveQueue.Shift(f, p).Some? {
        PortShifts(Root(x.top), f, p);
      }
    }
  }

  lemma AllMovedMatched(x: Schema, tree: Node, f: Effect, fs: seq<Effect>, ws: seq<Waiting>)
    requires AllMatched(x, fs, ws) && Shrinkable(Root(x.top), tree)
    requires f.inList ==> PortAt(Root(x.top), f.base).Some? && PortAt(Root(x.top), f.base).value.kind.LIST?
    requires LiveQueue.Located(Shrunk(Root(x.top), tree), JsonRefs(ws))
    ensures AllMatched(x, fs, AllMoved(tree, f, ws))
    ensures JsonRefs(AllMoved(tree, f, ws)) == LiveQueue.MovedRefs(Shrunk(Root(x.top), tree), f, JsonRefs(ws))
  {
    forall i | 0 <= i < |ws|
      ensures Matched(x, fs[i], Moved(tree, f, ws[i]))
      ensures JsonRef(Moved(tree, f, ws[i])) == LiveQueue.MovedRef(Shrunk(Root(x.top), tree), f, JsonRefs(ws)[i])
    {
      assert JsonRefs(ws)[i] == JsonRef(ws[i]);
      assert JsonRef(ws[i]).Live? ==> JsonRef(ws[i]).place == ws[i].ref.place;
      MovedMatched(x, tree, f, fs[i], ws[i]);
    }
  }

  /** The mutation's effect is the one it has on the shrunk container. */
  lemma SameEffect(p: seq<string>, q: Port, c: Node, ch: Change, v: Json)
    requires Applies(c, ch) && Plain(q, c) && Shrinkable(q, c)
    ensures Mutated(Shrunk(q, c), AsMutation(ch, v)).Some?
    ensures LiveQueue.EffectOf(p, Shrunk(q, c), AsMutation(ch, v)) == EffectAt(p, c, ch)
  {
    SameFrame(q, c, ch, v);
  }

  /** The container at a place that no union leads to. */
  predicate ContainerAt(x: Schema, tree: Node, p: seq<string>, c: Node, q: Port) {
    NodeAt(tree, p) == Some(c) && PortAt(Root(x.top), p) == Some(q) && Plain(q, c) && Shrinkable(Root(x.top), tree)
  }

  lemma TreeAfter(x: Schema, tree: Node, p: seq<string>, c: Node, q: Port, ch: Change)
    requires ContainerAt(x, tree, p, c, q) && Applies(c, ch)
    ensures var root, after := Root(x.top), PutNode(tree, p, After(x.top, c, ch));
      && Shrinkable(q, c) && At(Shrunk(root, tree), p) == Some(Shrunk(q, c))
      && (if TakesValue(ch) && ChangePort(q, ch).None? then
            Shrinkable(root, after) && Shrunk(root, after) == Shrunk(root, tree)
          else
            && (Shrinkable(root, after) <==> (TakesValue(ch) ==> Shrinkable(ChangePort(q, ch).value, ch.n)))
            && (Shrinkable(root, after) ==>
                  && Mutated(Shrunk(q, c), ShrunkChange(q, ch)).Some?
                  && Shrunk(root, after) ==
                     Put(Shrunk(root, tree), p, Mutated(Shrunk(q, c), ShrunkChange(q, ch)).value)))
  {
    ShrunkAt(Root(x.top), tree, p);
    PutShrinks(Root(x.top), tree, p, After(x.top, c, ch));
    AfterShrinks(x.top, c, ch, q);
    LiveQueue.PutSame(Shrunk(Root(x.top), tree), p, Shrunk(q, c));
  }

  /** The value that a change puts into the container. */
  function NewNode(x: Schema, c: Node, ch: Change): Node
    requires Applies(c, ch) && TakesValue(ch)
  {
    match ch
    case SetKey(k, n) => Wrap(x.top, n, MakePath(c.path, k), FoundPort(x, c, ch))
    case SetAttr(k, n) => Wrap(x.top, n, MakePath(c.path, k), FoundPort(x, c, ch))
    case SetItem(i, n) => Wrap(x.top, n, ItemPath(c.path, i), FoundPort(x, c, ch))
    case Append(n) => Wrap(x.top, n, ItemPath(c.path, |c.items|), FoundPort(x, c, ch))
    case Insert(i, n) => Wrap(x.top, n, ItemPath(c.path, Clamp(i, |c.items|)), FoundPort(x, c, ch))
  }

  lemma NewNodeThere(x: Schema, p: seq<string>, c: Node, ch: Change)
    requires Applies(c, ch) && TakesValue(ch)
    ensures NodeChild(After(x.top, c, ch), EffectAt(p, c, ch).slot) == Some(NewNode(x, c, ch))
  {
    if c.List? {
      IndexRoundTrip(LiveQueue.SlotIndex(Frame(c), AsMutation(ch, Null)));
    }
  }

  lemma {:induction false} NodeAtPut(n: Node, p: seq<string>, c: Node, t: string)
    requires NodeAt(n, p).Some?
    ensures NodeAt(PutNode(n, p, c), p + [t]) == NodeChild(c, t)
    decreases p
  {
    if p == [] {
      assert p + [t] == [t];
      assert [t][1..] == [];
    } else {
      var child := NodeChild(n, p[0]).value;
      assert (p + [t])[1..] == p[1..] + [t];
      NodeAtPut(child, p[1..], c, t);
      assert NodeChild(WithNode(n, p[0], PutNode(child, p[1..], c)), p[0]) == Some(PutNode(child, p[1..], c));
    }
  }

  lemma NewNodeShrinks(x: Schema, c: Node, ch: Change, q: Port)
    requires Applies(c, ch) && TakesValue(ch)
    ensures Shrinkable(q, NewNode(x, c, ch)) <==> Shrinkable(q, ch.n)
    ensures Shrinkable(q, ch.n) ==> Shrunk(q, NewNode(x, c, ch)) == Shrunk(q, ch.n)
  {
    match ch
    case SetKey(k, n) => WrapShrinks(x.top, n, MakePath(c.path, k), FoundPort(x, c, ch), q);
    case SetAttr(k, n) => WrapShrinks(x.top, n, MakePath(c.path, k), FoundPort(x, c, ch), q);
    case SetItem(i, n) => WrapShrinks(x.top, n, ItemPath(c.path, i), FoundPort(x, c, ch), q);
    case Append(n) => WrapShrinks(x.top, n, ItemPath(c.path, |c.items|), FoundPort(x, c, ch), q);
    case Insert(i, n) => WrapShrinks(x.top, n, ItemPath(c.path, Clamp(i, |c.items|)), FoundPort(x, c, ch), q);
  }

  /** The value found for a change can be shrunk: there is a port, and it takes the value. */
  predicate FoundShrinks(x: Schema, c: Node, ch: Change)
    requires Applies(c, ch) && TakesValue(ch)
  {
    FoundPort(x, c, ch).Some? && Shrinkable(FoundPort(x, c, ch).value, ch.n)
  }

  lemma NewValueIs(x: Schema, tree: Node, p: seq<string>, c: Node, ch: Change)
    requires NodeAt(tree, p) == Some(c) && Applies(c, ch) && TakesValue(ch)
    ensures var f := EffectAt(p, c, ch);
      NodeNow(PutNode(tree, p, After(x.top, c, ch)), LiveQueue.Live(LiveQueue.Target(f))) == NewNode(x, c, ch)
  {
    NodeAtPut(tree, p, After(x.top, c, ch), EffectAt(p, c, ch).slot);
    NewNodeThere(x, p, c, ch);
  }

  /** The patch of a change right after it. */
  lemma OwnPatch(x: Schema, tree: Node, p: seq<string>, c: Node, ch: Change)
    requires NodeAt(tree, p) == Some(c) && Applies(c, ch)
    ensures var f := EffectAt(p, c, ch);
      var q := Taken(x, PutNode(tree, p, After(x.top, c, ch)), f, NewWaiting(x, c, ch, f));
      && q.interface == x.interface
      && q.patch.op == f.op && q.patch.path == Emitted(c.path, Frame(c), AsMutation(ch, Null)).path
      && (f.op.Remove? <==> !TakesValue(ch))
      && (q.port <==> TakesValue(ch) && FoundShrinks(x, c, ch))
      && (q.port ==> q.patch.value == Shrunk(FoundPort(x, c, ch).value, ch.n))
  {
    assert EffectAt(p, c, ch).op.Remove? <==> !TakesValue(ch);
    if TakesValue(ch) {
      NewValueIs(x, tree, p, c, ch);
      if FoundPort(x, c, ch).Some? {
        NewNodeShrinks(x, c, ch, FoundPort(x, c, ch).value);
      }
    }
  }

  // ---------------------------------------------------------------- when the copy catches up

  /** Processing the queue makes the agent's copy the state, and replicas follow. */
  ghost predicate Inv(x: Schema, s: Sys) {
    && x.interval != 0 && AllMatched(x, s.fs, s.ws) && Shrinkable(Root(x.top), s.tree)
    && s.agent.alive && x.interface in s.agent.states && Replication.Inv(s.agent, x.interval)
    && LiveQueue.Inv(s.agent.states[x.interface], s.fs, JsonRefs(s.ws), Shrunk(Root(x.top), s.tree))
  }

  /** The change has a place in the shrunk container. */
  predicate Counts(q: Port, ch: Change) {
    TakesValue(ch) ==> ChangePort(q, ch).Some?
  }

  /** The value, if there is one, is shrunk for its patch as it is shrunk as part of the state. */
  predicate FoundAsOwn(x: Schema, c: Node, q: Port, ch: Change)
    requires Applies(c, ch) && Counts(q, ch)
  {
    TakesValue(ch) ==>
      && FoundShrinks(x, c, ch) && Shrinkable(ChangePort(q, ch).value, ch.n)
      && Shrunk(FoundPort(x, c, ch).value, ch.n) == Shrunk(ChangePort(q, ch).value, ch.n)
  }

  lemma PublishedIff(q: Port, c: Node, ch: Change, v: Json)
    requires Applies(c, ch) && Plain(q, c) && Shrinkable(q, c) && Counts(q, ch)
    ensures Published(Shrunk(q, c), AsMutation(ch, v)) <==> NotNegative(c, ch)
  {
    if ch.SetAttr? {
      OwnIsNamed(q, ch.key);
    }
  }

  lemma ListPort(q: Port, c: Node)
    requires Plain(q, c) && Shrinkable(q, c) && c.List?
    ensures q.kind.LIST?
  {
  }

  /** The queue after a change outside the queued values still leads to the state before it. */
  lemma DrainedBefore(x: Schema, s: Sys, p: seq<string>, c: Node, q: Port, ch: Change)
    requires Inv(x, s) && ContainerAt(x, s.tree, p, c, q) && Applies(c, ch) && Counts(q, ch)
    requires !LiveQueue.Holds(JsonRefs(s.ws), p)
    requires Shrinkable(Root(x.top), PutNode(s.tree, p, After(x.top, c, ch)))
    ensures var f := EffectAt(p, c, ch);
      var a := Drain(x, s.agent, s.fs, AllMoved(s.tree, f, s.ws), PutNode(s.tree, p, After(x.top, c, ch)));
      && a.alive && a.states == s.agent.states[x.interface := Shrunk(Root(x.top), s.tree)]
  {
    var root, after, f := Root(x.top), PutNode(s.tree, p, After(x.top, c, ch)), EffectAt(p, c, ch);
    var d, e, refs := Shrunk(root, s.tree), Shrunk(root, after), JsonRefs(s.ws);
    MutationMadeHere(x, s.tree, p, c, q, ch);
    var m := ShrunkChange(q, ch);
    LiveQueue.OutsideReplay(s.agent.states[x.interface], s.fs, refs, d, f, Emitted("", Shrunk(q, c), m).value, e);
    if c.List? {
      ListPort(q, c);
    }
    AllMovedMatched(x, s.tree, f, s.fs, s.ws);
    LiveQueue.LocatedAppend(d, refs, f, Emitted("", Shrunk(q, c), m).value, e);
    LocatedFront(e, LiveQueue.MovedRefs(d, f, refs), LiveQueue.NewRef(f));
    DrainIsReplay(x, s.agent, s.fs, AllMoved(s.tree, f, s.ws), after);
  }

  lemma LocatedFront(e: Json, refs: seq<Ref<Json>>, r: Ref<Json>)
    requires LiveQueue.Located(e, refs + [r])
    ensures LiveQueue.Located(e, refs)
  {
    forall i | 0 <= i < |refs| && refs[i].Live? ensures At(e, refs[i].place).Some? {
      assert (refs + [r])[i] == refs[i];
    }
  }

  lemma MutationMadeHere(x: Schema, tree: Node, p: seq<string>, c: Node, q: Port, ch: Change)
    requires ContainerAt(x, tree, p, c, q) && Applies(c, ch) && Counts(q, ch)
    requires Shrinkable(Root(x.top), PutNode(tree, p, After(x.top, c, ch)))
    ensures TakesValue(ch) ==> Shrinkable(ChangePort(q, ch).value, ch.n)
    ensures Shrinkable(q, c)
    ensures var d, e := Shrunk(Root(x.top), tree), Shrunk(Root(x.top), PutNode(tree, p, After(x.top, c, ch)));
      var m := ShrunkChange(q, ch);
      && At(d, p) == Some(Shrunk(q, c)) && Mutated(Shrunk(q, c), m).Some?
      && e == Put(d, p, Mutated(Shrunk(q, c), m).value)
      && LiveQueue.EffectOf(p, Shrunk(q, c), m) == EffectAt(p, c, ch)
      && LiveQueue.Makes(d, EffectAt(p, c, ch), Emitted("", Shrunk(q, c), m).value, e)
  {
    TreeAfter(x, tree, p, c, q, ch);
    var m := ShrunkChange(q, ch);
    SameEffect(p, q, c, ch, if TakesValue(ch) then Shrunk(ChangePort(q, ch).value, ch.n) else Null);
    LiveQueue.MutationMakes(Shrunk(Root(x.top), tree), p, m);
  }

  lemma SlotMade(c: Json, m: Mutation)
    requires Mutated(c, m).Some? && !Emitted("", c, m).op.Remove?
    ensures Child(Mutated(c, m).value, LiveQueue.Slot(c, m)) == Some(Emitted("", c, m).value)
  {
    var f := LiveQueue.EffectOf([], c, m);
    LiveQueue.MutationDoes([], c, m);
    assert LiveQueue.BackToken(f, f.slot) == None;
  }

  lemma OtherValue(c: Json, ch: Change, v: Json, w: Json)
    requires TakesValue(ch) && Mutated(c, AsMutation(ch, v)).Some? && Mutated(c, AsMutation(ch, w)).Some? && v != w
    ensures Mutated(c, AsMutation(ch, v)) != Mutated(c, AsMutation(ch, w))
  {
    EmittedValue(c, ch, v);
    EmittedValue(c, ch, w);
    SlotMade(c, AsMutation(ch, v));
    SlotMade(c, AsMutation(ch, w));
    SameSlot(c, ch, v, w);
  }

  lemma EmittedValue(c: Json, ch: Change, v: Json)
    requires TakesValue(ch) && Mutated(c, AsMutation(ch, v)).Some?
    ensures Emitted("", c, AsMutation(ch, v)).value == v && !Emitted("", c, AsMutation(ch, v)).op.Remove?
  {
  }

  lemma SameSlot(c: Json, ch: Change, v: Json, w: Json)
    requires Mutated(c, AsMutation(ch, v)).Some? && Mutated(c, AsMutation(ch, w)).Some?
    ensures LiveQueue.Slot(c, AsMutation(ch, v)) == LiveQueue.Slot(c, AsMutation(ch, w))
  {
  }

  lemma PutOther(doc: Json, p: seq<string>, v: Json, w: Json)
    requires At(doc, p).Some? && v != w
    ensures Put(doc, p, v) != Put(doc, p, w)
  {
    StalePaths.AtPut(doc, p, v);
    StalePaths.AtPut(doc, p, w);
  }

  /** A patch with the value `w` does to the document what the change with the value `v` did at `p`. */
  lemma PatchWithIff(d: Json, p: seq<string>, base: string, ch: Change, v: Json, w: Json)
    requires At(d, p).Some? && Parse(base).Some? && Mutated(At(d, p).value, AsMutation(ch, v)).Some?
    requires Mutated(At(d, p).value, AsMutation(ch, v)).value != At(d, p).value
    requires Mutated(At(d, p).value, AsMutation(ch, w)).Some?
    requires Parse(base).value == p || v == w || !TakesValue(ch)
    ensures var c := At(d, p).value;
      var e := Emitted(base, c, AsMutation(ch, w));
      ApplyAt(d, e.op, e.path, e.value) == Some(Put(d, p, Mutated(c, AsMutation(ch, v)).value)) <==>
        Published(c, AsMutation(ch, v)) && Parse(base).value == p && (TakesValue(ch) ==> v == w)
  {
    var c := At(d, p).value;
    if v == w || !TakesValue(ch) {
      assert AsMutation(ch, w) == AsMutation(ch, v);
      StalePaths.PatchMeansMutationIff(d, p, base, AsMutation(ch, v));
    } else {
      EmittedPatchMeansMutation(d, base, AsMutation(ch, w));
      OtherValue(c, ch, v, w);
      PutOther(d, p, Mutated(c, AsMutation(ch, v)).value, Mutated(c, AsMutation(ch, w)).value);
    }
  }

  /** The value can be shrunk as part of the state. */
  predicate OwnShrinks(q: Port, ch: Change)
    requires Counts(q, ch)
  {
    TakesValue(ch) ==> Shrinkable(ChangePort(q, ch).value, ch.n)
  }

  /** The found port shrinks the value to something else, and the stored path is wrong as well. */
  predicate WrongTwice(x: Schema, p: seq<string>, c: Node, q: Port, ch: Change)
    requires Applies(c, ch)
  {
    && Counts(q, ch) && OwnShrinks(q, ch) && TakesValue(ch) && FoundShrinks(x, c, ch)
    && !FoundAsOwn(x, c, q, ch) && Parse(c.path) != Some(p)
  }

  /** A change of a container in a state, to which no union leads and which no queued value holds, and which changes
      what the state shrinks to: it reaches the agent's copy if and only if it names no item by a negative index, needs
      no value or finds a port that shrinks the value to what the state's own port makes of it, and the container's
      stored path is the place where it is. (If both the value and the path are wrong, this says nothing.) */
  lemma MutationReplicatesIff(x: Schema, s: Sys, p: seq<string>, c: Node, q: Port, ch: Change)
    requires Inv(x, s) && ContainerAt(x, s.tree, p, c, q) && Applies(c, ch) && !Ignored(c, ch)
    requires !LiveQueue.Holds(JsonRefs(s.ws), p) && Parse(c.path).Some? && !WrongTwice(x, p, c, q, ch)
    requires var after := Mutate(x, s, p, ch).tree;
      Shrinkable(Root(x.top), after) ==> Shrunk(Root(x.top), after) != Shrunk(Root(x.top), s.tree)
    ensures Counts(q, ch)
    ensures CaughtUp(x, Mutate(x, s, p, ch)) <==>
              NotNegative(c, ch) && FoundAsOwn(x, c, q, ch) && Parse(c.path).value == p
  {
    var after, f := PutNode(s.tree, p, After(x.top, c, ch)), EffectAt(p, c, ch);
    TreeAfter(x, s.tree, p, c, q, ch);
    if Shrinkable(Root(x.top), after) {
      DrainedBefore(x, s, p, c, q, ch);
      var a := Drain(x, s.agent, s.fs, AllMoved(s.tree, f, s.ws), after);
      DrainAppend(x, s.agent, s.fs, AllMoved(s.tree, f, s.ws), after, f, NewWaiting(x, c, ch, f));
      LastPatchIff(x, s, p, c, q, ch, a);
    }
  }

  /** The patch of the change, processed when the copy is the state before it. */
  lemma LastPatchIff(x: Schema, s: Sys, p: seq<string>, c: Node, q: Port, ch: Change, a: Replication.Agent)
    requires x.interval != 0 && ContainerAt(x, s.tree, p, c, q) && Applies(c, ch) && Counts(q, ch)
    requires Parse(c.path).Some?
    requires var after := PutNode(s.tree, p, After(x.top, c, ch));
      Shrinkable(Root(x.top), after) && Shrunk(Root(x.top), after) != Shrunk(Root(x.top), s.tree)
    requires !WrongTwice(x, p, c, q, ch) && Holding(x, a, Shrunk(Root(x.top), s.tree))
    ensures var after, f := PutNode(s.tree, p, After(x.top, c, ch)), EffectAt(p, c, ch);
      Holding(x, Replication.Processed(a, x.interval, Taken(x, after, f, NewWaiting(x, c, ch, f))),
              Shrunk(Root(x.top), after)) <==>
        NotNegative(c, ch) && FoundAsOwn(x, c, q, ch) && Parse(c.path).value == p
  {
    var after, f, d := PutNode(s.tree, p, After(x.top, c, ch)), EffectAt(p, c, ch), Shrunk(Root(x.top), s.tree);
    var last := Taken(x, after, f, NewWaiting(x, c, ch, f));
    OwnPatch(x, s.tree, p, c, ch);
    OwnPath(c, ch);
    ProcessedIs(x, a, last);
    if !TakesValue(ch) || FoundShrinks(x, c, ch) {
      LastAppliedIff(x, s.tree, p, c, q, ch, if TakesValue(ch) then last.patch.value else Null);
    }
  }

  lemma LastAppliedIff(x: Schema, tree: Node, p: seq<string>, c: Node, q: Port, ch: Change, w: Json)
    requires ContainerAt(x, tree, p, c, q) && Applies(c, ch) && Counts(q, ch) && Parse(c.path).Some?
    requires var after := PutNode(tree, p, After(x.top, c, ch));
      Shrinkable(Root(x.top), after) && Shrunk(Root(x.top), after) != Shrunk(Root(x.top), tree)
    requires !WrongTwice(x, p, c, q, ch) && (TakesValue(ch) ==> FoundShrinks(x, c, ch))
    requires w == if TakesValue(ch) then Shrunk(FoundPort(x, c, ch).value, ch.n) else Null
    ensures var e, d := Emitted(c.path, Frame(c), AsMutation(ch, Null)), Shrunk(Root(x.top), tree);
      ApplyAt(d, EffectAt(p, c, ch).op, e.path, w) ==
        Some(Shrunk(Root(x.top), PutNode(tree, p, After(x.top, c, ch)))) <==>
      NotNegative(c, ch) && FoundAsOwn(x, c, q, ch) && Parse(c.path).value == p
  {
    var d := Shrunk(Root(x.top), tree);
    MutationMadeHere(x, tree, p, c, q, ch);
    var v := if TakesValue(ch) then Shrunk(ChangePort(q, ch).value, ch.n) else Null;
    PublishedIff(q, c, ch, v);
    EmittedIs(p, q, c, ch, w);
    PutSameThing(d, p, Shrunk(q, c), Mutated(Shrunk(q, c), AsMutation(ch, v)).value);
    PatchWithIff(d, p, c.path, ch, v, w);
  }

  /** The patch of the shrunk container's mutation. */
  lemma EmittedIs(p: seq<string>, q: Port, c: Node, ch: Change, w: Json)
    requires Applies(c, ch) && Plain(q, c) && Shrinkable(q, c) && (TakesValue(ch) || w == Null)
    ensures Mutated(Shrunk(q, c), AsMutation(ch, w)).Some?
    ensures Emitted(c.path, Shrunk(q, c), AsMutation(ch, w)) ==
            Patch(EffectAt(p, c, ch).op, Emitted(c.path, Frame(c), AsMutation(ch, Null)).path, w)
  {
    SameFrame(q, c, ch, w);
  }

  lemma PutSameThing(d: Json, p: seq<string>, c: Json, h: Json)
    requires At(d, p) == Some(c) && Put(d, p, h) != d
    ensures h != c
  {
    LiveQueue.PutSame(d, p, c);
  }

  lemma OwnPath(c: Node, ch: Change)
    requires Applies(c, ch) && Parse(c.path).Some?
    ensures Emitted(c.path, Frame(c), AsMutation(ch, Null)).path != ""
    ensures Parse(Emitted(c.path, Frame(c), AsMutation(ch, Null)).path) ==
            Some(Parse(c.path).value + [LastToken(Frame(c), AsMutation(ch, Null))])
  {
    EmittedPathParses(c.path, Frame(c), AsMutation(ch, Null));
  }

  // ---------------------------------------------------------------- changes of what is still queued

  /** The change is published where the container is, and its value, if it has one, with the state's own port for it,
      which shrinks it. */
  predicate WellQueued(x: Schema, p: seq<string>, c: Node, q: Port, ch: Change)
    requires Applies(c, ch)
  {
    && Counts(q, ch) && OwnShrinks(q, ch) && Parse(c.path) == Some(p)
    && (TakesValue(ch) ==> FoundPort(x, c, ch) == ChangePort(q, ch))
  }

  lemma NewPort(x: Schema, p: seq<string>, c: Node, q: Port, ch: Change)
    requires PortAt(Root(x.top), p) == Some(q) && Plain(q, c) && Shrinkable(q, c) && Applies(c, ch)
    requires TakesValue(ch)
    ensures PortAt(Root(x.top), LiveQueue.Target(EffectAt(p, c, ch))) == ChangePort(q, ch)
  {
    var slot := EffectAt(p, c, ch).slot;
    PortAppend(Root(x.top), p, [slot]);
    assert [slot][1..] == [];
    assert OwnPort(q, slot) == ChangePort(q, ch);
  }

  lemma RemoveTakesNone(p: seq<string>, c: Node, ch: Change)
    requires Applies(c, ch)
    ensures EffectAt(p, c, ch).op.Remove? <==> !TakesValue(ch)
    ensures EffectAt(p, c, ch).base == p && (EffectAt(p, c, ch).inList <==> c.List?)
    ensures EffectAt(p, c, ch).token == LastToken(Frame(c), AsMutation(ch, Null))
  {
  }

  lemma NewMatched(x: Schema, tree: Node, p: seq<string>, c: Node, q: Port, ch: Change)
    requires ContainerAt(x, tree, p, c, q) && Applies(c, ch) && WellQueued(x, p, c, q, ch)
    ensures var f := EffectAt(p, c, ch);
      Matched(x, f, NewWaiting(x, c, ch, f)) && JsonRef(NewWaiting(x, c, ch, f)) == LiveQueue.NewRef(f)
  {
    ShrunkAt(Root(x.top), tree, p);
    OwnPath(c, ch);
    RemoveTakesNone(p, c, ch);
    if c.List? {
      ListPort(q, c);
    }
    if TakesValue(ch) {
      NewPort(x, p, c, q, ch);
    }
  }

  lemma MatchedAppend(x: Schema, fs: seq<Effect>, ws: seq<Waiting>, f: Effect, w: Waiting)
    requires AllMatched(x, fs, ws) && Matched(x, f, w)
    ensures AllMatched(x, fs + [f], ws + [w])
  {
  }

  /** The queue after such a change. */
  lemma QueueAfter(x: Schema, s: Sys, p: seq<string>, c: Node, q: Port, ch: Change)
    requires Inv(x, s) && ContainerAt(x, s.tree, p, c, q) && Applies(c, ch) && !Ignored(c, ch)
    requires WellQueued(x, p, c, q, ch)
    ensures var s', f, d := Mutate(x, s, p, ch), EffectAt(p, c, ch), Shrunk(Root(x.top), s.tree);
      && Shrinkable(Root(x.top), s'.tree) && AllMatched(x, s'.fs, s'.ws)
      && JsonRefs(s'.ws) == LiveQueue.MovedRefs(d, f, JsonRefs(s.ws)) + [LiveQueue.NewRef(f)]
      && LiveQueue.Located(Shrunk(Root(x.top), s'.tree), JsonRefs(s'.ws))
  {
    var s', f, d := Mutate(x, s, p, ch), EffectAt(p, c, ch), Shrunk(Root(x.top), s.tree);
    TreeAfter(x, s.tree, p, c, q, ch);
    MutationMadeHere(x, s.tree, p, c, q, ch);
    if c.List? {
      ListPort(q, c);
    }
    AllMovedMatched(x, s.tree, f, s.fs, s.ws);
    NewMatched(x, s.tree, p, c, q, ch);
    LiveQueue.LocatedAppend(d, JsonRefs(s.ws), f, Emitted("", Shrunk(q, c), ShrunkChange(q, ch)).value,
                     Shrunk(Root(x.top), s'.tree));
    JsonRefsAppend(AllMoved(s.tree, f, s.ws), NewWaiting(x, c, ch, f));
    MatchedAppend(x, s.fs, AllMoved(s.tree, f, s.ws), f, NewWaiting(x, c, ch, f));
  }

  lemma JsonRefsAppend(ws: seq<Waiting>, w: Waiting)
    ensures JsonRefs(ws + [w]) == JsonRefs(ws) + [JsonRef(w)]
  {
  }

  /** The copy catches up exactly if replaying the queue gives the state. */
  lemma CaughtUpIsReplay(x: Schema, s: Sys)
    requires x.interval != 0 && s.agent.alive && x.interface in s.agent.states && AllMatched(x, s.fs, s.ws)
    requires Shrinkable(Root(x.top), s.tree) && LiveQueue.Located(Shrunk(Root(x.top), s.tree), JsonRefs(s.ws))
    ensures var d := Shrunk(Root(x.top), s.tree);
      var b := LiveQueue.Replay(s.agent.states[x.interface], s.fs, JsonRefs(s.ws), d);
      && (CaughtUp(x, s) <==> b == Some(d))
      && (Drain(x, s.agent, s.fs, s.ws, s.tree).alive <==> b.Some?)
  {
    DrainIsReplay(x, s.agent, s.fs, s.ws, s.tree);
  }

  /** A well queued change inside a value that is still queued reaches the copy exactly if it inserts or deletes no
      list item and every queued patch can still be applied: the value arrives with the change in it, and then the
      change is applied once more. */
  lemma MutationInsideIff(x: Schema, s: Sys, p: seq<string>, c: Node, q: Port, ch: Change)
    requires Inv(x, s) && ContainerAt(x, s.tree, p, c, q) && Applies(c, ch) && !Ignored(c, ch)
    requires WellQueued(x, p, c, q, ch)
    requires LiveQueue.Holds(JsonRefs(s.ws), p)
    ensures var s' := Mutate(x, s, p, ch);
      CaughtUp(x, s') <==>
        !LiveQueue.InsertsOrDeletes(EffectAt(p, c, ch)) && Drain(x, s'.agent, s'.fs, s'.ws, s'.tree).alive
  {
    QueueAfter(x, s, p, c, q, ch);
    MutationMadeHere(x, s.tree, p, c, q, ch);
    CaughtUpIsReplay(x, Mutate(x, s, p, ch));
    LiveQueue.InsideIff(s.agent.states[x.interface], s.fs, JsonRefs(s.ws), Shrunk(Root(x.top), s.tree), p,
                 ShrunkChange(q, ch));
  }

  /** A well queued change inside the value queued last, and no earlier one, reaches the copy exactly if it sets a key,
      an attribute, or an item by an index that is not negative. */
  lemma MutationOfLastIff(x: Schema, s: Sys, p: seq<string>, c: Node, q: Port, ch: Change)
    requires Inv(x, s) && ContainerAt(x, s.tree, p, c, q) && Applies(c, ch) && !Ignored(c, ch)
    requires WellQueued(x, p, c, q, ch)
    requires s.ws != [] && var last := |s.ws| - 1;
      s.ws[last].ref.Live? && s.ws[last].ref.place <= p && !LiveQueue.Holds(JsonRefs(s.ws)[..last], p)
    ensures CaughtUp(x, Mutate(x, s, p, ch)) <==> ch.SetKey? || ch.SetAttr? || (ch.SetItem? && ch.i >= 0)
  {
    QueueAfter(x, s, p, c, q, ch);
    MutationMadeHere(x, s.tree, p, c, q, ch);
    CaughtUpIsReplay(x, Mutate(x, s, p, ch));
    LiveQueue.JustQueuedIff(s.agent.states[x.interface], s.fs, JsonRefs(s.ws), Shrunk(Root(x.top), s.tree), p,
                     ShrunkChange(q, ch));
  }

  // ---------------------------------------------------------------- runs

  datatype Turn = Mutates(place: seq<string>, ch: Change) | Processes

  /** A change that is well queued, by no negative index, and keeps stored paths right; inside a value that is still
      queued it sets something, and every queued patch can still be applied. */
  ghost predicate SoundChange(x: Schema, s: Sys, p: seq<string>, ch: Change) {
    && CanMutate(s, p, ch) && PortAt(Root(x.top), p).Some?
    && var c, q := NodeAt(s.tree, p).value, PortAt(Root(x.top), p).value;
       && Plain(q, c)
       && (Ignored(c, ch) ||
           (&& WellQueued(x, p, c, q, ch) && NotNegative(c, ch) && KeepsPlaces(c, ch, p)
            && (LiveQueue.Holds(JsonRefs(s.ws), p) ==>
                  var s' := Mutate(x, s, p, ch);
                  LiveQueue.IsSet(EffectAt(p, c, ch)) && |s'.fs| == |s'.ws|
                  && Drain(x, s'.agent, s'.fs, s'.ws, s'.tree).alive)))
  }

  ghost predicate SoundTurn(x: Schema, s: Sys, t: Turn) {
    match t
    case Mutates(p, ch) => SoundChange(x, s, p, ch)
    case Processes => s.fs != [] && s.ws != []
  }

  function Next(x: Schema, s: Sys, t: Turn): Sys
    requires t.Mutates? ==> CanMutate(s, t.place, t.ch)
    requires t.Processes? ==> s.fs != [] && s.ws != []
  {
    match t
    case Mutates(p, ch) => Mutate(x, s, p, ch)
    case Processes => Process(x, s)
  }

  ghost predicate AllSound(x: Schema, s: Sys, turns: seq<Turn>)
    decreases turns
  {
    turns == [] || (SoundTurn(x, s, turns[0]) && AllSound(x, Next(x, s, turns[0]), turns[1..]))
  }

  ghost function End(x: Schema, s: Sys, turns: seq<Turn>): Sys
    requires AllSound(x, s, turns)
    decreases turns
  {
    if turns == [] then s else End(x, Next(x, s, turns[0]), turns[1..])
  }

  ghost predicate InPlace(x: Schema, s: Sys) {
    Inv(x, s) && AllPlaced(s.tree, [])
  }

  lemma ProcessKeeps(x: Schema, s: Sys)
    requires InPlace(x, s) && s.fs != [] && s.ws != []
    ensures InPlace(x, Process(x, s))
  {
    var d, refs := Shrunk(Root(x.top), s.tree), JsonRefs(s.ws);
    LiveQueue.ProcessKeepsInv(s.agent.states[x.interface], s.fs, refs, d);
    assert refs[0] == JsonRef(s.ws[0]) && refs[1..] == JsonRefs(s.ws[1..]);
    assert s.ws[0].ref.Live? ==> refs[0].Live? && refs[0].place == s.ws[0].ref.place;
    TakenApplies(x, s.agent, s.fs[0], s.ws[0], s.tree);
    TakenPath(x, s.tree, s.fs[0], s.ws[0]);
    Replication.ProcessedKeepsInv(s.agent, x.interval, Taken(x, s.tree, s.fs[0], s.ws[0]));
  }

  lemma TakenPath(x: Schema, tree: Node, f: Effect, w: Waiting)
    requires Matched(x, f, w)
    ensures Taken(x, tree, f, w).patch.path != ""
  {
  }

  lemma ChangeKeepsPlaces(x: Schema, s: Sys, p: seq<string>, c: Node, ch: Change)
    requires NodeAt(s.tree, p) == Some(c) && Applies(c, ch) && AllPlaced(s.tree, [])
    requires NotNegative(c, ch) && KeepsPlaces(c, ch, p)
    ensures AllPlaced(PutNode(s.tree, p, After(x.top, c, ch)), [])
  {
    assert [] + p == p;
    PlaceAt(s.tree, p, []);
    AfterPlacedIff(x.top, c, ch, p);
    PutPlacedIff(s.tree, p, After(x.top, c, ch), []);
  }

  lemma ChangeKeeps(x: Schema, s: Sys, p: seq<string>, ch: Change)
    requires InPlace(x, s) && SoundChange(x, s, p, ch)
    ensures InPlace(x, Mutate(x, s, p, ch))
  {
    var c, q := NodeAt(s.tree, p).value, PortAt(Root(x.top), p).value;
    if !Ignored(c, ch) {
      var a, refs, d := s.agent.states[x.interface], JsonRefs(s.ws), Shrunk(Root(x.top), s.tree);
      ChangeKeepsPlaces(x, s, p, c, ch);
      QueueAfter(x, s, p, c, q, ch);
      MutationMadeHere(x, s.tree, p, c, q, ch);
      PublishedIff(q, c, ch, if TakesValue(ch) then Shrunk(ChangePort(q, ch).value, ch.n) else Null);
      if LiveQueue.Holds(refs, p) {
        CaughtUpIsReplay(x, Mutate(x, s, p, ch));
        LiveQueue.SetInsideKeepsInv(a, s.fs, refs, d, p, ShrunkChange(q, ch));
      } else {
        LiveQueue.OutsideIff(a, s.fs, refs, d, p, ShrunkChange(q, ch));
      }
    }
  }

  lemma {:induction false} RunKeeps(x: Schema, s: Sys, turns: seq<Turn>)
    requires InPlace(x, s) && AllSound(x, s, turns)
    ensures InPlace(x, End(x, s, turns))
    decreases turns
  {
    if turns != [] {
      match turns[0] {
        case Mutates(p, ch) => ChangeKeeps(x, s, p, ch);
        case Processes => ProcessKeeps(x, s);
      }
      RunKeeps(x, Next(x, s, turns[0]), turns[1..]);
    }
  }

  /** Over every interleaving of sound changes with the patch processor: the processor never dies, processing what is
      queued makes the agent's copy the state, an empty queue means that it is, and a replica that starts at any
      snapshot agrees with the agent. */
  lemma SoundRunReplicates(x: Schema, s: Sys, turns: seq<Turn>)
    requires InPlace(x, s) && AllSound(x, s, turns)
    ensures var e := End(x, s, turns);
      && e.agent.alive && |e.fs| == |e.ws| && CaughtUp(x, e)
      && (e.fs == [] ==> Holding(x, e.agent, Shrunk(Root(x.top), e.tree)))
      && (forall k :: 0 <= k < |e.agent.sent| && e.agent.sent[k].StateSnapshot? ==>
            Replication.From(e.agent.sent, k) == Replication.Replica(e.agent.rev, e.agent.states))
  {
    RunKeeps(x, s, turns);
    CaughtUpIsReplay(x, End(x, s, turns));
  }

  /** A state wrapped for the first time is in place, and the agent that shrank it holds it. */
  lemma StartsInPlace(x: Schema, n: Node, states: Replication.States)
    requires x.interval != 0 && Unevented(n) && Shrinkable(Root(x.top), n)
    requires x.interface in states && states[x.interface] == Shrunk(Root(x.top), n)
    ensures InPlace(x, Sys(Wrap(x.top, n, "", None), [], [], Replication.Fresh(states)))
  {
    StartsPlaced(x.top, n);
    WrapShrinks(x.top, n, "", None, Root(x.top));
    Replication.FreshInv(states, x.interval);
  }

  // ---------------------------------------------------------------- which ports are found

  /** A container that stores the port it is shrunk with, or is the state itself, finds that port's child for a value
      exactly if the value is not set under a key of a dictionary; the child's own name, "...", is the exception. */
  lemma FoundIsOwnIff(x: Schema, c: Node, q: Port, ch: Change)
    requires Plain(q, c) && Shrinkable(q, c) && Applies(c, ch) && TakesValue(ch) && Counts(q, ch)
    requires c.port == Some(q) || (c.port == None && q == Root(x.top))
    ensures FoundPort(x, c, ch) == ChangePort(q, ch) <==> !ch.SetKey? || ch.key == q.children[0].key
  {
    if ch.SetKey? {
      FindPortIff(q.children, ch.key);
    }
  }

  /** Setting a key of a dictionary of a state never reaches the copy: it ends the patch processor. */
  lemma DictKeyKills(x: Schema, a: Replication.Agent, tree: Node, p: seq<string>, c: Node, ch: Change,
                     reg: Ports.Registry, item: Ports.Type, key: string, d: Ports.Default, nullable: bool,
                     gives: seq<string>)
    requires Ports.ToReturn(reg, Ports.DictT(item), key, d, nullable, gives).Some?
    requires NodeAt(tree, p) == Some(c) && c.Dict?
    requires c.port == Ports.ToReturn(reg, Ports.DictT(item), key, d, nullable, gives)
    requires Applies(c, ch) && ch.SetKey? && ch.key != "..." && a.alive
    ensures var f := EffectAt(p, c, ch);
      var q := Taken(x, PutNode(tree, p, After(x.top, c, ch)), f, NewWaiting(x, c, ch, f));
      Replication.Processed(a, x.interval, q) == a.(alive := false)
  {
    ChildPortIff(reg, Ports.DictT(item), key, d, nullable, gives, x.top, Name(ch.key));
    OwnPatch(x, tree, p, c, ch);
  }

  /** Dictionaries and lists without a port, down through lists. */
  predicate Portless(n: Node)
    decreases n
  {
    match n
    case Dict(_, port, _) => port == None
    case List(_, port, items) => port == None && forall i :: 0 <= i < |items| ==> Portless(items[i])
    case _ => true
  }

  lemma {:induction false} WrapPortless(top: seq<Port>, n: Node, path: string)
    ensures Portless(Wrap(top, n, path, None))
    decreases n
  {
    if n.List? {
      forall i | 0 <= i < |n.items| ensures Portless(Wrap(top, n.items[i], ItemPath(path, i), None)) {
        WrapPortless(top, n.items[i], ItemPath(path, i));
      }
    }
  }

  /** What a dictionary holds under another key than "..." is wrapped without a port. */
  lemma PortlessBelowDict(top: seq<Port>, n: Node, path: string, reg: Ports.Registry, item: Ports.Type, key: string,
                          d: Ports.Default, nullable: bool, gives: seq<string>, k: string)
    requires n.Dict? && k in n.fields && k != "..."
    requires Ports.ToReturn(reg, Ports.DictT(item), key, d, nullable, gives).Some?
    ensures var w := Wrap(top, n, path, Ports.ToReturn(reg, Ports.DictT(item), key, d, nullable, gives));
      w.Dict? && k in w.fields && Portless(w.fields[k])
  {
    ChildPortIff(reg, Ports.DictT(item), key, d, nullable, gives, top, Name(k));
    WrapPortless(top, n.fields[k], MakePath(path, k));
  }

  /** A container without a port, below a dictionary: a value put into a list there is never shrunk, and one put under a
      name is, exactly if the state itself has a port of that name and that port takes the value. */
  lemma PortlessShrinksIff(x: Schema, c: Node, ch: Change)
    requires !c.Leaf? && c.port == None && Applies(c, ch) && TakesValue(ch)
    ensures FoundShrinks(x, c, ch) <==>
              KeyOf(c, ch).Name?
              && exists i :: 0 <= i < |x.top| && x.top[i].key == KeyOf(c, ch).name && Shrinkable(x.top[i], ch.n)
                   && forall j :: 0 <= j < i ==> x.top[j].key != KeyOf(c, ch).name
  {
    if KeyOf(c, ch).Name? {
      FirstFound(x.top, KeyOf(c, ch).name);
    }
  }

  lemma {:induction false} FirstFound(ps: seq<Port>, key: string)
    ensures FindPort(ps, key).None? <==> forall i :: 0 <= i < |ps| ==> ps[i].key != key
    ensures forall i :: 0 <= i < |ps| && ps[i].key == key && (forall j :: 0 <= j < i ==> ps[j].key != key) ==>
              FindPort(ps, key) == Some(ps[i])
    ensures FindPort(ps, key).Some? ==>
              exists i :: 0 <= i < |ps| && ps[i].key == key && ps[i] == FindPort(ps, key).value
                && forall j :: 0 <= j < i ==> ps[j].key != key
  {
    if ps != [] {
      FirstFound(ps[1..], key);
      if ps[0].key != key && FindPort(ps[1..], key).Some? {
        var i :| 0 <= i < |ps[1..]| && ps[1..][i].key == key && ps[1..][i] == FindPort(ps[1..], key).value
          && forall j :: 0 <= j < i ==> ps[1..][j].key != key;
        assert ps[i + 1] == ps[1..][i];
        forall j | 0 <= j < i + 1 ensures ps[j].key != key {
          assert j > 0 ==> ps[j] == ps[1..][j - 1];
        }
      }
      forall i | 0 <= i < |ps| && ps[i].key == key && (forall j :: 0 <= j < i ==> ps[j].key != key)
        ensures FindPort(ps, key) == Some(ps[i])
      {
        if i > 0 {
          assert ps[1..][i - 1] == ps[i];
          forall j | 0 <= j < i - 1 ensures ps[1..][j].key != key {
            assert ps[1..][j] == ps[j + 1];
          }
        }
      }
      if FindPort(ps, key).None? {
        forall i | 0 <= i < |ps| ensures ps[i].key != key {
          assert i > 0 ==> ps[i] == ps[1..][i - 1];
        }
      }
    }
  }

  // ---------------------------------------------------------------- unions

  /** What a value of a union shrinks to. */
  predicate Tagged(d: Json) {
    d.Obj? && d.fields.Keys == {"__use", "__value"}
  }

  lemma {:induction false} ApplyBelow(doc: Json, op: Op, u: seq<string>, r: seq<string>, v: Json)
    requires At(doc, u).Some? && r != []
    ensures Apply(doc, op, u + r, v) ==
            match Apply(At(doc, u).value, op, r, v) case Some(h) => Some(Put(doc, u, h)) case None => None
    decreases u
  {
    if u == [] {
      assert u + r == r;
    } else {
      assert (u + r)[1..] == u[1..] + r;
      ApplyBelow(Child(doc, u[0]).value, op, u[1..], r, v);
    }
  }

  /** A patch that goes below a tagged value by another name than the tag's cannot be applied, or spoils the tag. */
  lemma TagSpoiled(doc: Json, op: Op, u: seq<string>, r: seq<string>, v: Json)
    requires At(doc, u).Some? && Tagged(At(doc, u).value) && r != [] && r[0] !in {"__use", "__value"}
    ensures var b := Apply(doc, op, u + r, v); b.Some? ==> At(b.value, u).Some? && !Tagged(At(b.value, u).value)
  {
    ApplyBelow(doc, op, u, r, v);
    var t := At(doc, u).value;
    var h := Apply(t, op, r, v);
    if h.Some? {
      StalePaths.AtPut(doc, u, h.value);
      assert r[0] in h.value.fields;
    }
  }

  lemma {:induction false} StillContainer(n: Node, p: seq<string>, c: Node, u: seq<string>)
    requires NodeAt(n, p).Some? && u <= p && !NodeAt(n, p).value.Leaf? && !c.Leaf?
    ensures NodeAt(n, u).Some? && !NodeAt(n, u).value.Leaf?
    ensures NodeAt(PutNode(n, p, c), u).Some? && !NodeAt(PutNode(n, p, c), u).value.Leaf?
    decreases u
  {
    if u != [] {
      var child := NodeChild(n, p[0]).value;
      LiveQueue.SameHead(u, p);
      StillContainer(child, p[1..], c, u[1..]);
      assert NodeChild(WithNode(n, p[0], PutNode(child, p[1..], c)), p[0]) == Some(PutNode(child, p[1..], c));
    }
  }

  lemma UnionTagged(root: Port, tree: Node, u: seq<string>)
    requires Shrinkable(root, tree) && NodeAt(tree, u).Some? && !NodeAt(tree, u).value.Leaf?
    requires PortAt(root, u).Some? && PortAt(root, u).value.kind.UNION?
    ensures At(Shrunk(root, tree), u).Some? && Tagged(At(Shrunk(root, tree), u).value)
  {
    ShrunkAt(root, tree, u);
  }

  /** A patch that goes below a tagged value does not lead to a document with another value tagged there. */
  lemma SpoiledBelow(x: Schema, a: Replication.Agent, doc: Json, q: Replication.QueuedPatch, u: seq<string>,
                     tokens: seq<string>, after: Json)
    requires x.interval != 0 && Holding(x, a, doc) && q.interface == x.interface
    requires q.patch.path != "" && Parse(q.patch.path) == Some(tokens)
    requires At(doc, u).Some? && Tagged(At(doc, u).value) && At(after, u).Some? && Tagged(At(after, u).value)
    requires |u| < |tokens| && tokens[..|u|] == u && tokens[|u|] !in {"__use", "__value"}
    ensures !Holding(x, Replication.Processed(a, x.interval, q), after)
  {
    ProcessedIs(x, a, q);
    assert tokens == u + tokens[|u|..];
    TagSpoiled(doc, q.patch.op, u, tokens[|u|..], if q.patch.op.Remove? then Null else q.patch.value);
  }

  lemma OwnTokens(x: Schema, tree: Node, p: seq<string>, c: Node, ch: Change)
    requires NodeAt(tree, p) == Some(c) && Applies(c, ch) && Parse(c.path) == Some(p)
    ensures var f := EffectAt(p, c, ch);
      var q := Taken(x, PutNode(tree, p, After(x.top, c, ch)), f, NewWaiting(x, c, ch, f));
      q.interface == x.interface && q.patch.path != "" && Parse(q.patch.path) == Some(p + [f.token])
  {
    OwnPatch(x, tree, p, c, ch);
    OwnPath(c, ch);
    RemoveTakesNone(p, c, ch);
  }

  lemma TaggedBoth(root: Port, tree: Node, p: seq<string>, h: Node, u: seq<string>)
    requires Shrinkable(root, tree) && NodeAt(tree, p).Some? && u <= p && !NodeAt(tree, p).value.Leaf? && !h.Leaf?
    requires PortAt(root, u).Some? && PortAt(root, u).value.kind.UNION?
    ensures At(Shrunk(root, tree), u).Some? && Tagged(At(Shrunk(root, tree), u).value)
    ensures var after := PutNode(tree, p, h);
      Shrinkable(root, after) ==> At(Shrunk(root, after), u).Some? && Tagged(At(Shrunk(root, after), u).value)
  {
    StillContainer(tree, p, h, u);
    UnionTagged(root, tree, u);
    if Shrinkable(root, PutNode(tree, p, h)) {
      UnionTagged(root, PutNode(tree, p, h), u);
    }
  }

  /** The agent once it has processed a change that was queued alone. */
  function Alone(x: Schema, a: Replication.Agent, tree: Node, p: seq<string>, c: Node, ch: Change): Replication.Agent
    requires x.interval != 0 && NodeAt(tree, p) == Some(c) && Applies(c, ch)
  {
    var f, after := EffectAt(p, c, ch), PutNode(tree, p, After(x.top, c, ch));
    Replication.Processed(a, x.interval, Taken(x, after, f, NewWaiting(x, c, ch, f)))
  }

  lemma AlonePatch(x: Schema, a: Replication.Agent, tree: Node, p: seq<string>, c: Node, ch: Change)
    returns (q: Replication.QueuedPatch)
    requires x.interval != 0 && NodeAt(tree, p) == Some(c) && Applies(c, ch) && Parse(c.path) == Some(p)
    ensures Alone(x, a, tree, p, c, ch) == Replication.Processed(a, x.interval, q)
    ensures q.interface == x.interface && q.patch.path != ""
    ensures Parse(q.patch.path) == Some(p + [EffectAt(p, c, ch).token])
  {
    OwnTokens(x, tree, p, c, ch);
    var f, after := EffectAt(p, c, ch), PutNode(tree, p, After(x.top, c, ch));
    q := Taken(x, after, f, NewWaiting(x, c, ch, f));
  }

  lemma AloneSpoiled(x: Schema, a: Replication.Agent, tree: Node, doc: Json, u: seq<string>, p: seq<string>, c: Node,
                     ch: Change, after: Json)
    requires x.interval != 0 && Holding(x, a, doc)
    requires NodeAt(tree, p) == Some(c) && Applies(c, ch) && Parse(c.path) == Some(p) && u <= p
    requires At(doc, u).Some? && Tagged(At(doc, u).value) && At(after, u).Some? && Tagged(At(after, u).value)
    requires (p + [EffectAt(p, c, ch).token])[|u|] !in {"__use", "__value"}
    ensures !Holding(x, Alone(x, a, tree, p, c, ch), after)
  {
    var q := AlonePatch(x, a, tree, p, c, ch);
    SpoiledBelow(x, a, doc, q, u, p + [EffectAt(p, c, ch).token], after);
  }

  /** No change at or below a value of a union ever reaches the agent's copy, whatever port is found for it: the copy
      holds the tagged value, and the path goes past the tag. (Names that the tag itself uses are left out.) */
  lemma UnionNever(x: Schema, a: Replication.Agent, tree: Node, u: seq<string>, p: seq<string>, c: Node, ch: Change)
    requires x.interval != 0 && Shrinkable(Root(x.top), tree) && Holding(x, a, Shrunk(Root(x.top), tree))
    requires NodeAt(tree, p) == Some(c) && Applies(c, ch) && Parse(c.path) == Some(p)
    requires u <= p && PortAt(Root(x.top), u).Some? && PortAt(Root(x.top), u).value.kind.UNION?
    requires (p + [EffectAt(p, c, ch).token])[|u|] !in {"__use", "__value"}
    ensures var after := PutNode(tree, p, After(x.top, c, ch));
      Shrinkable(Root(x.top), after) ==> !Holding(x, Alone(x, a, tree, p, c, ch), Shrunk(Root(x.top), after))
  {
    var after, root := PutNode(tree, p, After(x.top, c, ch)), Root(x.top);
    TaggedBoth(root, tree, p, After(x.top, c, ch), u);
    if Shrinkable(root, after) {
      AloneSpoiled(x, a, tree, Shrunk(root, tree), u, p, c, ch, Shrunk(root, after));
    }
  }
}
