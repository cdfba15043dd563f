/** Queued patches refer to live values: a value is shrunk when its patch is processed (`_aprocess_patch_event`,
    rekuest_next/agents/base.py), as it is by then. Here values are JSON documents; `StateSync` adds what they are
    shrunk from. */
module LiveQueue {
  import opened Prelude
  import opened JsonPointer
  import opened JsonPatch
  import StalePaths

  type Place = seq<string>

  /** A queued value is either somewhere in the state, or has left it and does not change any more. */
  datatype Ref<V> = Live(place: Place) | Gone(v: V)

  /** What a queued patch does to the container at `base`: `token` ends its path, and `slot` is the place it names,
      which differs only for an append. */
  datatype Effect = Effect(op: Op, base: Place, token: string, slot: string, inList: bool)

  predicate InsertsOrDeletes(f: Effect) {
    f.inList && !f.op.Replace?
  }

  /** A set: of a member, an attribute or an item. */
  predicate IsSet(f: Effect) {
    !f.op.Remove? && !InsertsOrDeletes(f)
  }

  function Target(f: Effect): Place {
    f.base + [f.slot]
  }

  // ---------------------------------------------------------------- where places go

  /** Where the child `t` of the container goes; `None` if it is overwritten or removed. */
  function ShiftToken(f: Effect, t: string): Option<string> {
    if InsertsOrDeletes(f) && ParseIndex(t).Some? && ParseIndex(f.slot).Some? then
      var i, j := ParseIndex(t).value, ParseIndex(f.slot).value;
      if i < j then Some(t)
      else if f.op.Add? then Some(IndexToken(i + 1))
      else if i == j then None
      else Some(IndexToken(i - 1))
    else if t == f.slot then None
    else Some(t)
  }

  /** Where the child `t` of the container was before; `None` if it is new, or not there. */
  function BackToken(f: Effect, t: string): Option<string> {
    if InsertsOrDeletes(f) && ParseIndex(t).Some? && ParseIndex(f.slot).Some? then
      var i, j := ParseIndex(t).value, ParseIndex(f.slot).value;
      if i < j then Some(t)
      else if f.op.Remove? then Some(IndexToken(i + 1))
      else if i == j then None
      else Some(IndexToken(i - 1))
    else if t == f.slot then None
    else Some(t)
  }

  function Shift(f: Effect, x: Place): Option<Place> {
    if !(f.base < x) then Some(x)
    else
      match ShiftToken(f, x[|f.base|])
      case Some(t) => Some(x[|f.base| := t])
      case None => None
  }

  function Back(f: Effect, x: Place): Option<Place> {
    if !(f.base < x) then Some(x)
    else
      match BackToken(f, x[|f.base|])
      case Some(t) => Some(x[|f.base| := t])
      case None => None
  }

  lemma TokenThereAndBack(f: Effect, t: string)
    requires ParseIndex(f.slot).Some? || !f.inList
    ensures ShiftToken(f, t).Some? ==> BackToken(f, ShiftToken(f, t).value) == Some(t)
    ensures BackToken(f, t).Some? ==> ShiftToken(f, BackToken(f, t).value) == Some(t)
  {
    if InsertsOrDeletes(f) && ParseIndex(t).Some? {
      ParsedIndexIsToken(t);
      var i := ParseIndex(t).value;
      IndexRoundTrip(i + 1);
      if i > 0 {
        IndexRoundTrip(i - 1);
      }
    }
  }

  lemma ThereAndBack(f: Effect, x: Place)
    requires ParseIndex(f.slot).Some? || !f.inList
    ensures Shift(f, x).Some? ==> |Shift(f, x).value| == |x| && Back(f, Shift(f, x).value) == Some(x)
    ensures Back(f, x).Some? ==> |Back(f, x).value| == |x| && Shift(f, Back(f, x).value) == Some(x)
  {
    if f.base < x {
      TokenThereAndBack(f, x[|f.base|]);
      if Shift(f, x).Some? {
        var y := Shift(f, x).value;
        assert y[..|f.base|] == x[..|f.base|] == f.base;
        assert y[|f.base| := x[|f.base|]] == x;
      }
      if Back(f, x).Some? {
        var y := Back(f, x).value;
        assert y[..|f.base|] == x[..|f.base|] == f.base;
        assert y[|f.base| := x[|f.base|]] == x;
      }
    }
  }

  /** What holds a place goes with it. */
  lemma ShiftPrefix(f: Effect, x: Place, y: Place)
    requires x <= y && Shift(f, y).Some?
    ensures |Shift(f, y).value| == |y| && Shift(f, x) == Some(Shift(f, y).value[..|x|])
  {
    var n := |f.base|;
    assert y[..|x|] == x;
    if f.base < y {
      assert y[..n] == f.base;
      if n < |x| {
        assert x[n] == y[n] && x[..n] == f.base;
        assert Shift(f, y).value[..|x|] == x[n := ShiftToken(f, y[n]).value];
      } else {
        assert Shift(f, y).value[..|x|] == x;
      }
    }
  }

  /** A set inside `x` leaves the places below `x` that survive where they are, relative to `x`. */
  lemma ShiftBelow(f: Effect, x: Place, y: Place)
    requires x <= y && Shift(f, y).Some? && (x <= f.base ==> IsSet(f))
    ensures |Shift(f, y).value| == |y| && Shift(f, y).value[|x|..] == y[|x|..]
  {
    var n := |f.base|;
    if f.base < y {
      assert y[..n] == f.base;
      if n >= |x| {
        assert x == f.base[..|x|];
        assert Shift(f, y).value == y;
      }
    }
  }

  /** Where a place is after the queued patches from `fs[0]` on. */
  function Fate(x: Place, fs: seq<Effect>): Option<Place>
    decreases fs
  {
    if fs == [] then Some(x)
    else
      match Shift(fs[0], x)
      case Some(y) => Fate(y, fs[1..])
      case None => None
  }

  /** Whatever is patched inside `x`, wherever that is by then, is set. */
  ghost predicate QuietFor(x: Place, fs: seq<Effect>)
    decreases fs
  {
    fs == [] ||
    ((x <= fs[0].base ==> IsSet(fs[0])) && (Shift(fs[0], x).Some? ==> QuietFor(Shift(fs[0], x).value, fs[1..])))
  }

  lemma {:induction false} FatePrefix(x: Place, y: Place, fs: seq<Effect>)
    requires x <= y && Fate(y, fs).Some?
    ensures |Fate(y, fs).value| == |y| && Fate(x, fs) == Some(Fate(y, fs).value[..|x|])
    decreases fs
  {
    assert y[..|x|] == x;
    if fs != [] {
      ShiftPrefix(fs[0], x, y);
      FatePrefix(Shift(fs[0], x).value, Shift(fs[0], y).value, fs[1..]);
    }
  }

  lemma {:induction false} FateBelow(x: Place, y: Place, fs: seq<Effect>)
    requires x <= y && Fate(y, fs).Some? && QuietFor(x, fs)
    ensures |Fate(y, fs).value| == |y| && Fate(x, fs) == Some(Fate(y, fs).value[..|x|])
    ensures Fate(y, fs).value == Fate(x, fs).value + y[|x|..]
    decreases fs
  {
    FatePrefix(x, y, fs);
    if fs != [] {
      ShiftPrefix(fs[0], x, y);
      ShiftBelow(fs[0], x, y);
      FateBelow(Shift(fs[0], x).value, Shift(fs[0], y).value, fs[1..]);
    }
  }

  lemma {:induction false} QuietBelow(x: Place, y: Place, fs: seq<Effect>)
    requires x <= y && QuietFor(x, fs)
    ensures QuietFor(y, fs)
    decreases fs
  {
    if fs != [] && Shift(fs[0], y).Some? {
      ShiftPrefix(fs[0], x, y);
      QuietBelow(Shift(fs[0], x).value, Shift(fs[0], y).value, fs[1..]);
    }
  }

  lemma {:induction false} FateAppend(x: Place, fs: seq<Effect>, f: Effect)
    ensures Fate(x, fs + [f]) == if Fate(x, fs).Some? then Shift(f, Fate(x, fs).value) else None
    decreases fs
  {
    if fs == [] {
      assert [] + [f] == [f];
    } else {
      assert (fs + [f])[1..] == fs[1..] + [f];
      if Shift(fs[0], x).Some? {
        FateAppend(Shift(fs[0], x).value, fs[1..], f);
      }
    }
  }

  lemma {:induction false} QuietAppend(x: Place, fs: seq<Effect>, f: Effect)
    requires QuietFor(x, fs)
    requires Fate(x, fs).Some? && Fate(x, fs).value <= f.base ==> IsSet(f)
    ensures QuietFor(x, fs + [f])
    decreases fs
  {
    if fs == [] {
      assert [] + [f] == [f];
    } else {
      assert (fs + [f])[1..] == fs[1..] + [f];
      if Shift(fs[0], x).Some? {
        QuietAppend(Shift(fs[0], x).value, fs[1..], f);
      }
    }
  }

  // ---------------------------------------------------------------- looking at a document

  /** What is at a place, without what is below it. */
  datatype Look = Absent | Scalar(v: Json) | ListOf(n: nat) | Object

  function LookAt(doc: Json, x: Place): Look {
    match At(doc, x)
    case None => Absent
    case Some(Arr(items)) => ListOf(|items|)
    case Some(Obj(_)) => Object
    case Some(v) => Scalar(v)
  }

  lemma {:induction false} AtAppend(doc: Json, p: Place, r: Place)
    ensures At(doc, p + r) == if At(doc, p).Some? then At(At(doc, p).value, r) else None
    decreases p
  {
    if p == [] {
      assert p + r == r;
    } else if Child(doc, p[0]).Some? {
      assert (p + r)[1..] == p[1..] + r;
      AtAppend(Child(doc, p[0]).value, p[1..], r);
    }
  }

  lemma AtCut(doc: Json, p: Place, x: Place)
    requires p <= x && At(doc, p).Some?
    ensures At(doc, x) == At(At(doc, p).value, x[|p|..])
  {
    assert x == p + x[|p|..];
    AtAppend(doc, p, x[|p|..]);
  }

  lemma AtPrefix(doc: Json, p: Place, x: Place)
    requires p <= x && At(doc, x).Some?
    ensures At(doc, p).Some?
  {
    assert x == p + x[|p|..];
    AtAppend(doc, p, x[|p|..]);
  }

  lemma ChildAt(doc: Json, p: Place, x: Place)
    requires p < x && At(doc, p).Some?
    ensures var child := Child(At(doc, p).value, x[|p|]);
      At(doc, x) == if child.Some? then At(child.value, x[|p| + 1..]) else None
  {
    AtCut(doc, p, x);
    assert x[|p|..][1..] == x[|p| + 1..];
  }

  /** Two documents that look the same everywhere are the same. */
  lemma {:induction false} SameLooks(a: Json, b: Json)
    requires forall x :: LookAt(a, x) == LookAt(b, x)
    ensures a == b
    decreases a
  {
    assert LookAt(a, []) == LookAt(b, []);
    match a
    case Obj(m) =>
      forall k | k in m.Keys + b.fields.Keys ensures k in m && k in b.fields && m[k] == b.fields[k] {
        assert LookAt(a, [k]) == LookAt(b, [k]);
        ChildLook(a, k);
        ChildLook(b, k);
        ChildSameLooks(a, b, k);
        SameLooks(m[k], b.fields[k]);
      }
      assert m == b.fields;
    case Arr(xs) =>
      forall i | 0 <= i < |xs| ensures xs[i] == b.items[i] {
        IndexRoundTrip(i);
        ChildSameLooks(a, b, IndexToken(i));
        SameLooks(xs[i], b.items[i]);
      }
    case _ =>
  }

  lemma ChildLook(a: Json, t: string)
    ensures LookAt(a, [t]) != Absent <==> Child(a, t).Some?
  {
    assert [t][1..] == [];
    if Child(a, t).Some? {
      assert At(a, [t]) == At(Child(a, t).value, []) == Child(a, t);
    }
  }

  lemma ChildSameLooks(a: Json, b: Json, t: string)
    requires Child(a, t).Some? && Child(b, t).Some? && forall x :: LookAt(a, x) == LookAt(b, x)
    ensures forall x :: LookAt(Child(a, t).value, x) == LookAt(Child(b, t).value, x)
  {
    forall x ensures LookAt(Child(a, t).value, x) == LookAt(Child(b, t).value, x) {
      assert LookAt(a, [t] + x) == LookAt(b, [t] + x);
      assert ([t] + x)[1..] == x;
    }
  }

  lemma {:induction false} PutInside(doc: Json, p: Place, h: Json, x: Place)
    requires At(doc, p).Some? && p <= x
    ensures At(Put(doc, p, h), x) == At(h, x[|p|..])
    decreases p
  {
    if p != [] {
      var d := Child(doc, p[0]).value;
      StalePaths.ChildOfWith(doc, p[0], Put(d, p[1..], h), p[0]);
      PutInside(d, p[1..], h, x[1..]);
      assert x[1..][|p| - 1..] == x[|p|..];
    }
  }

  lemma SameHead(p: Place, x: Place)
    requires p != [] && x != [] && p[0] == x[0]
    ensures p <= x <==> p[1..] <= x[1..]
  {
    assert p == [p[0]] + p[1..] && x == [x[0]] + x[1..];
  }

  lemma {:induction false} PutElsewhere(doc: Json, p: Place, h: Json, x: Place)
    requires At(doc, p).Some? && !(p <= x) && !(x <= p)
    ensures At(Put(doc, p, h), x) == At(doc, x)
    decreases p
  {
    var d := Child(doc, p[0]).value;
    StalePaths.ChildOfWith(doc, p[0], Put(d, p[1..], h), x[0]);
    if x[0] == p[0] {
      SameHead(p, x);
      SameHead(x, p);
      PutElsewhere(d, p[1..], h, x[1..]);
    }
  }

  lemma {:induction false} PutAbove(doc: Json, p: Place, h: Json, x: Place)
    requires At(doc, p).Some? && x < p
    ensures LookAt(Put(doc, p, h), x) == LookAt(doc, x)
    decreases p
  {
    var d := Child(doc, p[0]).value;
    StalePaths.ChildOfWith(doc, p[0], Put(d, p[1..], h), p[0]);
    if x != [] {
      SameHead(x, p);
      PutAbove(d, p[1..], h, x[1..]);
    }
  }

  // ---------------------------------------------------------------- what an effect does

  function ChildAfter(f: Effect, c: Json, v: Json, t: string): Option<Json> {
    match BackToken(f, t)
    case Some(u) => Child(c, u)
    case None => if f.op.Remove? then None else Some(v)
  }

  function Bumped(f: Effect, look: Look): Look {
    if look.ListOf? && InsertsOrDeletes(f) then
      (if f.op.Add? then ListOf(look.n + 1) else ListOf(if look.n == 0 then 0 else look.n - 1))
    else
      look
  }

  /** `h` is what the effect, with the value `v`, makes of the container `c`. */
  ghost predicate Does(f: Effect, c: Json, v: Json, h: Json) {
    (forall t :: Child(h, t) == ChildAfter(f, c, v, t)) && LookAt(h, []) == Bumped(f, LookAt(c, []))
  }

  predicate SlotFits(f: Effect) {
    f.inList ==> ParseIndex(f.slot).Some?
  }

  /** The patch that ends in `f.token` names `f.slot` in the container. */
  predicate FitsIn(f: Effect, c: Json) {
    && (if f.inList then c.Arr? else c.Obj?)
    && SlotFits(f)
    && (if f.inList && f.op.Add? && f.token == "-" then ParseIndex(f.slot) == Some(|c.items|) else f.token == f.slot)
  }

  lemma PatchDoes(f: Effect, c: Json, v: Json, h: Json)
    requires FitsIn(f, c) && ApplyHere(c, f.op, f.token, v) == Some(h)
    ensures Does(f, c, v, h)
  {
    if f.inList {
      if f.token == "-" && f.op.Add? {
        assert c.items[..|c.items|] + [v] + c.items[|c.items|..] == c.items + [v];
      }
      ItemsDo(f, c, v, h);
    } else {
      forall t ensures Child(h, t) == ChildAfter(f, c, v, t) {
      }
    }
  }

  lemma ItemsDo(f: Effect, c: Json, v: Json, h: Json)
    requires f.inList && c.Arr? && h.Arr? && ParseIndex(f.slot).Some?
    requires var j := ParseIndex(f.slot).value;
      match f.op
      case Add => j <= |c.items| && h.items == c.items[..j] + [v] + c.items[j..]
      case Replace => j < |c.items| && h.items == c.items[j := v]
      case Remove => j < |c.items| && h.items == c.items[..j] + c.items[j + 1..]
    ensures Does(f, c, v, h)
  {
    forall t ensures Child(h, t) == ChildAfter(f, c, v, t) {
      if ParseIndex(t).Some? {
        match f.op
        case Add => ItemAdded(f, c, v, h, t);
        case Replace => ItemReplaced(f, c, v, h, t);
        case Remove => ItemRemoved(f, c, v, h, t);
      } else {
        assert t != f.slot;
      }
    }
  }

  lemma ItemAdded(f: Effect, c: Json, v: Json, h: Json, t: string)
    requires f.inList && c.Arr? && h.Arr? && ParseIndex(f.slot).Some? && ParseIndex(t).Some? && f.op.Add?
    requires var j := ParseIndex(f.slot).value; j <= |c.items| && h.items == c.items[..j] + [v] + c.items[j..]
    ensures Child(h, t) == ChildAfter(f, c, v, t)
  {
    var i, j := ParseIndex(t).value, ParseIndex(f.slot).value;
    if i > j {
      IndexRoundTrip(i - 1);
      assert i <= |c.items| ==> h.items[i] == c.items[i - 1];
    } else if i < j {
      assert h.items[i] == c.items[i];
    }
  }

  lemma ItemReplaced(f: Effect, c: Json, v: Json, h: Json, t: string)
    requires f.inList && c.Arr? && h.Arr? && ParseIndex(f.slot).Some? && ParseIndex(t).Some? && f.op.Replace?
    requires var j := ParseIndex(f.slot).value; j < |c.items| && h.items == c.items[j := v]
    ensures Child(h, t) == ChildAfter(f, c, v, t)
  {
    if t != f.slot {
      ParsedIndexIsToken(t);
      ParsedIndexIsToken(f.slot);
    }
  }

  lemma ItemRemoved(f: Effect, c: Json, v: Json, h: Json, t: string)
    requires f.inList && c.Arr? && h.Arr? && ParseIndex(f.slot).Some? && ParseIndex(t).Some? && f.op.Remove?
    requires var j := ParseIndex(f.slot).value; j < |c.items| && h.items == c.items[..j] + c.items[j + 1..]
    ensures Child(h, t) == ChildAfter(f, c, v, t)
  {
    var i, j := ParseIndex(t).value, ParseIndex(f.slot).value;
    if i >= j {
      IndexRoundTrip(i + 1);
      assert i + 1 < |c.items| ==> h.items[i] == c.items[i + 1];
    } else {
      assert h.items[i] == c.items[i];
    }
  }

  // ---------------------------------------------------------------- what a mutation does

  function SlotIndex(c: Json, m: Mutation): nat
    requires Mutated(c, m).Some? && c.Arr?
  {
    match m
    case SetItem(i, _) => Normal(i, |c.items|)
    case DeleteItem(i) => Normal(i, |c.items|)
    case Pop(i) => Normal(Normal(i, |c.items|), |c.items|)
    case Append(_) => |c.items|
    case Insert(i, _) => Clamp(i, |c.items|)
  }

  function Slot(c: Json, m: Mutation): string
    requires Mutated(c, m).Some?
  {
    if c.Arr? then IndexToken(SlotIndex(c, m)) else LastToken(c, m)
  }

  /** The mutation of the container `c` at `p`, as it is queued. */
  function EffectOf(p: Place, c: Json, m: Mutation): Effect
    requires Mutated(c, m).Some?
  {
    Effect(Emitted("", c, m).op, p, LastToken(c, m), Slot(c, m), c.Arr?)
  }

  lemma MutationDoes(p: Place, c: Json, m: Mutation)
    requires Mutated(c, m).Some?
    ensures var f := EffectOf(p, c, m);
      Does(f, c, Emitted("", c, m).value, Mutated(c, m).value) && SlotFits(f)
  {
    var f, v, h := EffectOf(p, c, m), Emitted("", c, m).value, Mutated(c, m).value;
    if f.inList {
      MutatedItems(p, c, m);
      ItemsDo(f, c, v, h);
    } else {
      forall t ensures Child(h, t) == ChildAfter(f, c, v, t) {
      }
    }
  }

  lemma MutatedItems(p: Place, c: Json, m: Mutation)
    requires c.Arr? && Mutated(c, m).Some?
    ensures var f, h, v := EffectOf(p, c, m), Mutated(c, m).value, Emitted("", c, m).value;
      && h.Arr? && ParseIndex(f.slot) == Some(SlotIndex(c, m))
      && var j := SlotIndex(c, m);
         match f.op
         case Add => j <= |c.items| && h.items == c.items[..j] + [v] + c.items[j..]
         case Replace => j < |c.items| && h.items == c.items[j := v]
         case Remove => j < |c.items| && h.items == c.items[..j] + c.items[j + 1..]
  {
    IndexRoundTrip(SlotIndex(c, m));
    if m.Append? {
      assert c.items[..|c.items|] + [m.v] + c.items[|c.items|..] == c.items + [m.v];
    }
  }

  /** Its patch names the place it mutates, exactly if it is published properly; for an attribute that is new, it does
      so although the patch cannot be applied. */
  lemma MutationFits(p: Place, c: Json, m: Mutation)
    requires Mutated(c, m).Some?
    ensures FitsIn(EffectOf(p, c, m), c) <==> Published(c, m) || m.SetAttr?
  {
    if c.Arr? {
      var j := SlotIndex(c, m);
      IndexRoundTrip(j);
      IndexTokenDigits(j);
      if !Published(c, m) {
        NegativeToken(if m.Pop? then Normal(m.i, |c.items|) else m.i);
      }
    }
  }

  // ---------------------------------------------------------------- and to the document around it

  lemma AfterBelow(doc: Json, f: Effect, v: Json, h: Json, y: Place)
    requires At(doc, f.base).Some? && Does(f, At(doc, f.base).value, v, h) && f.base < y && SlotFits(f)
    ensures Back(f, y).Some? ==> At(Put(doc, f.base, h), y) == At(doc, Back(f, y).value)
    ensures Back(f, y).None? ==>
              At(Put(doc, f.base, h), y) == if f.op.Remove? then None else At(v, y[|f.base| + 1..])
  {
    var n, c, after := |f.base|, At(doc, f.base).value, Put(doc, f.base, h);
    StalePaths.AtPut(doc, f.base, h);
    ChildAt(after, f.base, y);
    assert Child(h, y[n]) == ChildAfter(f, c, v, y[n]);
    if Back(f, y).Some? {
      var x := Back(f, y).value;
      assert x[..n] == y[..n] == f.base && x[n + 1..] == y[n + 1..];
      ChildAt(doc, f.base, x);
    }
  }

  lemma AfterElsewhere(doc: Json, f: Effect, v: Json, h: Json, y: Place)
    requires At(doc, f.base).Some? && Does(f, At(doc, f.base).value, v, h) && !(f.base < y)
    ensures LookAt(Put(doc, f.base, h), y) ==
            if y == f.base then Bumped(f, LookAt(doc, y)) else LookAt(doc, y)
    ensures !(y <= f.base) ==> At(Put(doc, f.base, h), y) == At(doc, y)
  {
    if y == f.base {
      StalePaths.AtPut(doc, f.base, h);
    } else if y < f.base {
      PutAbove(doc, f.base, h, y);
    } else {
      PutElsewhere(doc, f.base, h, y);
    }
  }

  /** What is not around the container is where it is shifted to. */
  lemma ShiftedThere(doc: Json, f: Effect, v: Json, h: Json, x: Place)
    requires At(doc, f.base).Some? && Does(f, At(doc, f.base).value, v, h) && SlotFits(f)
    requires Shift(f, x).Some? && !(x <= f.base)
    ensures At(Put(doc, f.base, h), Shift(f, x).value) == At(doc, x)
  {
    var y := Shift(f, x).value;
    ThereAndBack(f, x);
    if f.base < x {
      assert y[..|f.base|] == f.base;
      AfterBelow(doc, f, v, h, y);
    } else {
      AfterElsewhere(doc, f, v, h, y);
    }
  }

  // ---------------------------------------------------------------- the queue

  /** The value of a queued patch if it is processed now. */
  function Now(d: Json, r: Ref<Json>): Json {
    match r
    case Live(p) => if At(d, p).Some? then At(d, p).value else Null
    case Gone(v) => v
  }

  function MovedRef(d: Json, f: Effect, r: Ref<Json>): Ref<Json> {
    match r
    case Live(p) => if Shift(f, p).Some? then Live(Shift(f, p).value) else Gone(Now(d, r))
    case Gone(_) => r
  }

  /** Where the queued values are after `f`, which changes the document `d`. */
  function MovedRefs(d: Json, f: Effect, refs: seq<Ref<Json>>): seq<Ref<Json>> {
    seq(|refs|, i requires 0 <= i < |refs| => MovedRef(d, f, refs[i]))
  }

  function NewRef(f: Effect): Ref<Json> {
    if f.op.Remove? then Gone(Null) else Live(Target(f))
  }

  /** The queued patches applied to `a`, with their values as they are in `d`. */
  function Replay(a: Json, fs: seq<Effect>, refs: seq<Ref<Json>>, d: Json): Option<Json>
    requires |fs| == |refs|
    decreases fs
  {
    if fs == [] then Some(a)
    else
      match Patched(a, fs[0], Now(d, refs[0]))
      case Some(b) => Replay(b, fs[1..], refs[1..], d)
      case None => None
  }

  function Patched(a: Json, f: Effect, v: Json): Option<Json> {
    Apply(a, f.op, f.base + [f.token], v)
  }

  ghost predicate RefFits(f: Effect, r: Ref<Json>, later: seq<Effect>) {
    if f.op.Remove? then r.Gone?
    else
      && QuietFor(Target(f), later)
      && (match r case Live(p) => Fate(Target(f), later) == Some(p) case Gone(_) => Fate(Target(f), later) == None)
  }

  /** A value is live exactly if no later patch took it out, and inside it there are only sets. */
  ghost predicate Tidy(fs: seq<Effect>, refs: seq<Ref<Json>>)
    requires |fs| == |refs|
    decreases fs
  {
    fs == [] || (RefFits(fs[0], refs[0], fs[1..]) && Tidy(fs[1..], refs[1..]))
  }

  ghost predicate Located(d: Json, refs: seq<Ref<Json>>) {
    forall i :: 0 <= i < |refs| && refs[i].Live? ==> At(d, refs[i].place).Some?
  }

  predicate FitsAt(a: Json, f: Effect) {
    At(a, f.base).Some? && FitsIn(f, At(a, f.base).value)
  }

  /** Every queued patch, when its turn comes, finds the container it was published for, if that is still there at the
      end. */
  ghost predicate Fitting(a: Json, fs: seq<Effect>, refs: seq<Ref<Json>>, d: Json)
    requires |fs| == |refs|
    decreases fs
  {
    fs == [] ||
    (&& (Fate(fs[0].base, fs).Some? ==> FitsAt(a, fs[0]))
     && (match Patched(a, fs[0], Now(d, refs[0]))
         case Some(b) => Fitting(b, fs[1..], refs[1..], d)
         case None => true))
  }

  /** Processing the queue makes the agent's copy `a` the document `d`. */
  ghost predicate Inv(a: Json, fs: seq<Effect>, refs: seq<Ref<Json>>, d: Json) {
    && |fs| == |refs| && Tidy(fs, refs) && Located(d, refs)
    && Fitting(a, fs, refs, d) && Replay(a, fs, refs, d) == Some(d)
  }

  /** A queued value holds the place. */
  ghost predicate Holds(refs: seq<Ref<Json>>, p: Place) {
    exists i :: 0 <= i < |refs| && refs[i].Live? && refs[i].place <= p
  }

  /** `e` is the document `d` after `f` with the value `v`. */
  ghost predicate Makes(d: Json, f: Effect, v: Json, e: Json) {
    && At(d, f.base).Some? && At(e, f.base).Some? && SlotFits(f)
    && Does(f, At(d, f.base).value, v, At(e, f.base).value)
    && e == Put(d, f.base, At(e, f.base).value)
  }

  lemma MutationMakes(d: Json, p: Place, m: Mutation)
    requires At(d, p).Some? && Mutated(At(d, p).value, m).Some?
    ensures var c := At(d, p).value;
      Makes(d, EffectOf(p, c, m), Emitted("", c, m).value, Put(d, p, Mutated(c, m).value))
  {
    MutationDoes(p, At(d, p).value, m);
    StalePaths.AtPut(d, p, Mutated(At(d, p).value, m).value);
  }

  lemma {:induction false} ReplayAppend(a: Json, fs: seq<Effect>, refs: seq<Ref<Json>>, d: Json, f: Effect,
                                        r: Ref<Json>)
    requires |fs| == |refs|
    ensures Replay(a, fs + [f], refs + [r], d) ==
            match Replay(a, fs, refs, d) case Some(b) => Patched(b, f, Now(d, r)) case None => None
    decreases fs
  {
    if fs == [] {
      assert [] + [f] == [f] && refs + [r] == [r];
    } else {
      assert (fs + [f])[1..] == fs[1..] + [f] && (refs + [r])[1..] == refs[1..] + [r];
      var b := Patched(a, fs[0], Now(d, refs[0]));
      if b.Some? {
        ReplayAppend(b.value, fs[1..], refs[1..], d, f, r);
      }
    }
  }

  lemma {:induction false} FittingAppend(a: Json, fs: seq<Effect>, refs: seq<Ref<Json>>, d: Json, f: Effect,
                                         r: Ref<Json>)
    requires |fs| == |refs| && Fitting(a, fs, refs, d)
    requires Replay(a, fs, refs, d).Some? ==> FitsAt(Replay(a, fs, refs, d).value, f)
    ensures Fitting(a, fs + [f], refs + [r], d)
    decreases fs
  {
    if fs == [] {
      assert [] + [f] == [f] && refs + [r] == [r];
    } else {
      assert (fs + [f])[1..] == fs[1..] + [f] && (refs + [r])[1..] == refs[1..] + [r];
      FateAppend(fs[0].base, fs, f);
      var b := Patched(a, fs[0], Now(d, refs[0]));
      if b.Some? {
        FittingAppend(b.value, fs[1..], refs[1..], d, f, r);
      }
    }
  }

  lemma MovedFits(d: Json, f: Effect, g: Effect, r: Ref<Json>, later: seq<Effect>)
    requires RefFits(g, r, later) && (r.Live? && r.place <= f.base ==> IsSet(f))
    ensures RefFits(g, MovedRef(d, f, r), later + [f])
  {
    if !g.op.Remove? {
      FateAppend(Target(g), later, f);
      QuietAppend(Target(g), later, f);
    }
  }

  lemma {:induction false} TidyAppend(d: Json, fs: seq<Effect>, refs: seq<Ref<Json>>, f: Effect)
    requires |fs| == |refs| && Tidy(fs, refs) && (Holds(refs, f.base) ==> IsSet(f))
    ensures Tidy(fs + [f], MovedRefs(d, f, refs) + [NewRef(f)])
    decreases fs
  {
    var moved := MovedRefs(d, f, refs);
    if fs == [] {
      assert [] + [f] == [f] && moved + [NewRef(f)] == [NewRef(f)];
      assert [f][1..] == [];
    } else {
      assert (fs + [f])[1..] == fs[1..] + [f] && (moved + [NewRef(f)])[1..] == moved[1..] + [NewRef(f)];
      assert moved[1..] == MovedRefs(d, f, refs[1..]);
      MovedFits(d, f, fs[0], refs[0], fs[1..]);
      HoldsMore(refs, f.base);
      TidyAppend(d, fs[1..], refs[1..], f);
    }
  }

  lemma HoldsMore(refs: seq<Ref<Json>>, p: Place)
    requires refs != []
    ensures Holds(refs, p) <==> (refs[0].Live? && refs[0].place <= p) || Holds(refs[1..], p)
  {
    if Holds(refs, p) {
      var i :| 0 <= i < |refs| && refs[i].Live? && refs[i].place <= p;
      assert i == 0 || refs[1..][i - 1] == refs[i];
    }
    if Holds(refs[1..], p) {
      var i :| 0 <= i < |refs[1..]| && refs[1..][i].Live? && refs[1..][i].place <= p;
      assert refs[i + 1] == refs[1..][i];
    }
  }

  /** What stays in the document is found again, and what leaves it is kept. */
  lemma LocatedAppend(d: Json, refs: seq<Ref<Json>>, f: Effect, v: Json, e: Json)
    requires Located(d, refs) && Makes(d, f, v, e)
    ensures Located(e, MovedRefs(d, f, refs) + [NewRef(f)])
  {
    var moved := MovedRefs(d, f, refs) + [NewRef(f)];
    forall i | 0 <= i < |moved| && moved[i].Live? ensures At(e, moved[i].place).Some? {
      if i < |refs| {
        MovedLocated(d, f, v, e, refs[i].place);
      } else {
        TargetMade(d, f, v, e);
      }
    }
  }

  lemma MovedLocated(d: Json, f: Effect, v: Json, e: Json, x: Place)
    requires Makes(d, f, v, e) && At(d, x).Some? && Shift(f, x).Some?
    ensures At(e, Shift(f, x).value).Some?
  {
    if x <= f.base {
      AtPrefix(e, x, f.base);
    } else {
      ShiftedThere(d, f, v, At(e, f.base).value, x);
    }
  }

  lemma TargetMade(d: Json, f: Effect, v: Json, e: Json)
    requires Makes(d, f, v, e) && !f.op.Remove?
    ensures At(e, Target(f)) == Some(v)
  {
    var y := Target(f);
    assert y[..|f.base|] == f.base && y[|f.base| + 1..] == [];
    assert BackToken(f, f.slot) == None;
    AfterBelow(d, f, v, At(e, f.base).value, y);
  }

  // ---------------------------------------------------------------- a mutation outside the queued values

  lemma NowKept(d: Json, f: Effect, v: Json, e: Json, r: Ref<Json>)
    requires Makes(d, f, v, e) && (r.Live? ==> At(d, r.place).Some? && !(r.place <= f.base))
    ensures Now(e, MovedRef(d, f, r)) == Now(d, r)
  {
    if r.Live? && Shift(f, r.place).Some? {
      ShiftedThere(d, f, v, At(e, f.base).value, r.place);
    }
  }

  lemma {:induction false} SameValuesReplay(a: Json, fs: seq<Effect>, refs: seq<Ref<Json>>, d: Json,
                                            refs2: seq<Ref<Json>>, e: Json)
    requires |fs| == |refs| == |refs2| && forall i :: 0 <= i < |refs| ==> Now(d, refs[i]) == Now(e, refs2[i])
    ensures Replay(a, fs, refs, d) == Replay(a, fs, refs2, e)
    ensures Fitting(a, fs, refs, d) ==> Fitting(a, fs, refs2, e)
    decreases fs
  {
    if fs != [] {
      var b := Patched(a, fs[0], Now(d, refs[0]));
      if b.Some? {
        SameValuesReplay(b.value, fs[1..], refs[1..], d, refs2[1..], e);
      }
    }
  }

  /** A mutation outside the queued values changes none of them, so the queue still leads to the document before it. */
  lemma OutsideReplay(a: Json, fs: seq<Effect>, refs: seq<Ref<Json>>, d: Json, f: Effect, v: Json, e: Json)
    requires Inv(a, fs, refs, d) && Makes(d, f, v, e) && !Holds(refs, f.base)
    ensures Replay(a, fs, MovedRefs(d, f, refs), e) == Some(d) && Fitting(a, fs, MovedRefs(d, f, refs), e)
  {
    forall i | 0 <= i < |refs| ensures Now(d, refs[i]) == Now(e, MovedRefs(d, f, refs)[i]) {
      NowKept(d, f, v, e, refs[i]);
    }
    SameValuesReplay(a, fs, refs, d, MovedRefs(d, f, refs), e);
  }

  /** So it leads to the document after it exactly if the mutation's own patch does. */
  lemma OutsideKeepsInvIff(a: Json, fs: seq<Effect>, refs: seq<Ref<Json>>, d: Json, f: Effect, v: Json, e: Json)
    requires Inv(a, fs, refs, d) && Makes(d, f, v, e) && !Holds(refs, f.base) && FitsAt(d, f)
    ensures Inv(a, fs + [f], MovedRefs(d, f, refs) + [NewRef(f)], e) <==> Patched(d, f, Now(e, NewRef(f))) == Some(e)
  {
    var moved := MovedRefs(d, f, refs);
    OutsideReplay(a, fs, refs, d, f, v, e);
    ReplayAppend(a, fs, moved, e, f, NewRef(f));
    FittingAppend(a, fs, moved, e, f, NewRef(f));
    TidyAppend(d, fs, refs, f);
    LocatedAppend(d, refs, f, v, e);
  }

  // ---------------------------------------------------------------- a mutation inside a queued value

  /** `a` and `b` look the same wherever the queued patches lead to a place that is not at or below `l`. */
  ghost predicate Alike(a: Json, b: Json, fs: seq<Effect>, l: Place) {
    forall x :: Fate(x, fs).Some? && !(l <= Fate(x, fs).value) ==> LookAt(a, x) == LookAt(b, x)
  }

  /** And so do the two values of a patch, which comes to `p`. */
  ghost predicate ValuesAlike(w: Json, w2: Json, p: Place, l: Place) {
    forall r :: !(l <= p + r) ==> LookAt(w, r) == LookAt(w2, r)
  }

  lemma PatchedMakes(a: Json, f: Effect, w: Json, b: Json)
    requires FitsAt(a, f) && Patched(a, f, w) == Some(b)
    ensures Makes(a, f, w, b)
  {
    var c := At(a, f.base).value;
    StalePaths.ApplyAnywhere(a, f.op, f.base, f.token, w);
    PatchDoes(f, c, w, ApplyHere(c, f.op, f.token, w).value);
    StalePaths.AtPut(a, f.base, ApplyHere(c, f.op, f.token, w).value);
  }

  lemma PatchedElsewhere(a: Json, f: Effect, w: Json, b: Json, y: Place)
    requires Patched(a, f, w) == Some(b) && !(f.base <= y)
    ensures LookAt(b, y) == LookAt(a, y)
  {
    StalePaths.ApplyAnywhere(a, f.op, f.base, f.token, w);
    var h := ApplyHere(At(a, f.base).value, f.op, f.token, w).value;
    if y < f.base {
      PutAbove(a, f.base, h, y);
    } else {
      PutElsewhere(a, f.base, h, y);
    }
  }

  lemma MakesLooks(a: Json, f: Effect, w: Json, b: Json, y: Place)
    requires Makes(a, f, w, b)
    ensures f.base < y && Back(f, y).Some? ==> At(b, y) == At(a, Back(f, y).value)
    ensures f.base < y && Back(f, y).None? ==> At(b, y) == if f.op.Remove? then None else At(w, y[|f.base| + 1..])
    ensures y == f.base ==> LookAt(b, y) == Bumped(f, LookAt(a, y))
    ensures !(f.base <= y) ==> LookAt(b, y) == LookAt(a, y)
  {
    if f.base < y {
      AfterBelow(a, f, w, At(b, f.base).value, y);
    } else {
      AfterElsewhere(a, f, w, At(b, f.base).value, y);
    }
  }

  lemma BackNone(f: Effect, y: Place)
    requires f.base < y && Back(f, y).None? && !f.op.Remove? && SlotFits(f)
    ensures Target(f) <= y && y == Target(f) + y[|f.base| + 1..]
  {
    var t := y[|f.base|];
    if ParseIndex(t).Some? && ParseIndex(f.slot).Some? {
      ParsedIndexIsToken(t);
      ParsedIndexIsToken(f.slot);
    }
    assert t == f.slot;
    assert y == f.base + [t] + y[|f.base| + 1..];
  }

  /** The containers that a patch finds in the two documents, if they lead to a place not at or below `l`. */
  lemma BothFit(a: Json, b: Json, fs: seq<Effect>, l: Place)
    requires fs != [] && Alike(a, b, fs, l)
    requires Fate(fs[0].base, fs).Some? && !(l <= Fate(fs[0].base, fs).value) && FitsAt(a, fs[0])
    ensures FitsAt(b, fs[0])
  {
    assert LookAt(a, fs[0].base) == LookAt(b, fs[0].base);
  }

  lemma BaseFate(fs: seq<Effect>, y: Place, l: Place)
    requires fs != [] && fs[0].base <= y && Fate(y, fs[1..]).Some? && !(l <= Fate(y, fs[1..]).value)
    ensures Fate(fs[0].base, fs).Some? && !(l <= Fate(fs[0].base, fs).value)
  {
    FatePrefix(fs[0].base, y, fs[1..]);
  }

  lemma BothMake(a: Json, b: Json, fs: seq<Effect>, w: Json, w2: Json, l: Place, y: Place)
    requires fs != [] && Alike(a, b, fs, l) && (Fate(fs[0].base, fs).Some? ==> FitsAt(a, fs[0]))
    requires Patched(a, fs[0], w).Some? && Patched(b, fs[0], w2).Some?
    requires fs[0].base <= y && Fate(y, fs[1..]).Some? && !(l <= Fate(y, fs[1..]).value)
    ensures Makes(a, fs[0], w, Patched(a, fs[0], w).value) && Makes(b, fs[0], w2, Patched(b, fs[0], w2).value)
  {
    BaseFate(fs, y, l);
    BothFit(a, b, fs, l);
    PatchedMakes(a, fs[0], w, Patched(a, fs[0], w).value);
    PatchedMakes(b, fs[0], w2, Patched(b, fs[0], w2).value);
  }

  /** A place in the new value. */
  lemma AlikeInValue(w: Json, w2: Json, fs: seq<Effect>, l: Place, y: Place)
    requires fs != [] && !fs[0].op.Remove? && SlotFits(fs[0]) && fs[0].base < y && Back(fs[0], y).None?
    requires QuietFor(Target(fs[0]), fs[1..])
    requires Fate(Target(fs[0]), fs[1..]).Some? ==>
               ValuesAlike(w, w2, Fate(Target(fs[0]), fs[1..]).value, l)
    requires Fate(y, fs[1..]).Some? && !(l <= Fate(y, fs[1..]).value)
    ensures LookAt(w, y[|fs[0].base| + 1..]) == LookAt(w2, y[|fs[0].base| + 1..])
  {
    var f := fs[0];
    BackNone(f, y);
    FateBelow(Target(f), y, fs[1..]);
    assert y[|Target(f)|..] == y[|f.base| + 1..];
    assert !(l <= Fate(Target(f), fs[1..]).value + y[|f.base| + 1..]);
  }

  lemma AlikeMoved(a: Json, b: Json, fs: seq<Effect>, w: Json, w2: Json, a1: Json, b1: Json, l: Place, y: Place)
    requires fs != [] && Alike(a, b, fs, l) && Makes(a, fs[0], w, a1) && Makes(b, fs[0], w2, b1)
    requires fs[0].base < y && Back(fs[0], y).Some? && Fate(y, fs[1..]).Some? && !(l <= Fate(y, fs[1..]).value)
    ensures LookAt(a1, y) == LookAt(b1, y)
  {
    var x := Back(fs[0], y).value;
    MakesLooks(a, fs[0], w, a1, y);
    MakesLooks(b, fs[0], w2, b1, y);
    ThereAndBack(fs[0], y);
    assert Fate(x, fs) == Fate(y, fs[1..]);
    assert LookAt(a, x) == LookAt(b, x);
  }

  lemma AlikeNew(fs: seq<Effect>, a: Json, b: Json, w: Json, w2: Json, a1: Json, b1: Json, l: Place, y: Place)
    requires fs != [] && Makes(a, fs[0], w, a1) && Makes(b, fs[0], w2, b1)
    requires !fs[0].op.Remove? ==> QuietFor(Target(fs[0]), fs[1..])
    requires !fs[0].op.Remove? && Fate(Target(fs[0]), fs[1..]).Some? ==>
               ValuesAlike(w, w2, Fate(Target(fs[0]), fs[1..]).value, l)
    requires fs[0].base < y && Back(fs[0], y).None? && Fate(y, fs[1..]).Some? && !(l <= Fate(y, fs[1..]).value)
    ensures LookAt(a1, y) == LookAt(b1, y)
  {
    NewLooks(a, fs[0], w, a1, y);
    NewLooks(b, fs[0], w2, b1, y);
    if !fs[0].op.Remove? {
      AlikeInValue(w, w2, fs, l, y);
    }
  }

  lemma NewLooks(a: Json, f: Effect, w: Json, b: Json, y: Place)
    requires Makes(a, f, w, b) && f.base < y && Back(f, y).None?
    ensures LookAt(b, y) == if f.op.Remove? then Absent else LookAt(w, y[|f.base| + 1..])
  {
    MakesLooks(a, f, w, b, y);
  }

  lemma AlikeBelow(a: Json, b: Json, fs: seq<Effect>, w: Json, w2: Json, l: Place, y: Place)
    requires fs != [] && Alike(a, b, fs, l) && (Fate(fs[0].base, fs).Some? ==> FitsAt(a, fs[0]))
    requires Patched(a, fs[0], w).Some? && Patched(b, fs[0], w2).Some?
    requires !fs[0].op.Remove? ==> QuietFor(Target(fs[0]), fs[1..])
    requires !fs[0].op.Remove? && Fate(Target(fs[0]), fs[1..]).Some? ==>
               ValuesAlike(w, w2, Fate(Target(fs[0]), fs[1..]).value, l)
    requires fs[0].base < y
    requires Fate(y, fs[1..]).Some? && !(l <= Fate(y, fs[1..]).value)
    ensures LookAt(Patched(a, fs[0], w).value, y) == LookAt(Patched(b, fs[0], w2).value, y)
  {
    BothMake(a, b, fs, w, w2, l, y);
    var a1, b1 := Patched(a, fs[0], w).value, Patched(b, fs[0], w2).value;
    if Back(fs[0], y).Some? {
      AlikeMoved(a, b, fs, w, w2, a1, b1, l, y);
    } else {
      AlikeNew(fs, a, b, w, w2, a1, b1, l, y);
    }
  }

  lemma AlikeElsewhere(a: Json, b: Json, fs: seq<Effect>, w: Json, w2: Json, l: Place, y: Place)
    requires fs != [] && Alike(a, b, fs, l) && (Fate(fs[0].base, fs).Some? ==> FitsAt(a, fs[0]))
    requires Patched(a, fs[0], w).Some? && Patched(b, fs[0], w2).Some?
    requires !(fs[0].base < y)
    requires Fate(y, fs[1..]).Some? && !(l <= Fate(y, fs[1..]).value)
    ensures LookAt(Patched(a, fs[0], w).value, y) == LookAt(Patched(b, fs[0], w2).value, y)
  {
    var f := fs[0];
    assert Fate(y, fs) == Fate(y, fs[1..]);
    if y == f.base {
      BothMake(a, b, fs, w, w2, l, y);
      MakesLooks(a, f, w, Patched(a, f, w).value, y);
      MakesLooks(b, f, w2, Patched(b, f, w2).value, y);
    } else {
      PatchedElsewhere(a, f, w, Patched(a, f, w).value, y);
      PatchedElsewhere(b, f, w2, Patched(b, f, w2).value, y);
    }
  }

  lemma AlikeStep(a: Json, b: Json, fs: seq<Effect>, w: Json, w2: Json, l: Place)
    requires fs != [] && Alike(a, b, fs, l) && (Fate(fs[0].base, fs).Some? ==> FitsAt(a, fs[0]))
    requires Patched(a, fs[0], w).Some? && Patched(b, fs[0], w2).Some?
    requires !fs[0].op.Remove? ==> QuietFor(Target(fs[0]), fs[1..])
    requires !fs[0].op.Remove? && Fate(Target(fs[0]), fs[1..]).Some? ==>
               ValuesAlike(w, w2, Fate(Target(fs[0]), fs[1..]).value, l)
    ensures Alike(Patched(a, fs[0], w).value, Patched(b, fs[0], w2).value, fs[1..], l)
  {
    forall y | Fate(y, fs[1..]).Some? && !(l <= Fate(y, fs[1..]).value)
      ensures LookAt(Patched(a, fs[0], w).value, y) == LookAt(Patched(b, fs[0], w2).value, y)
    {
      if fs[0].base < y {
        AlikeBelow(a, b, fs, w, w2, l, y);
      } else {
        AlikeElsewhere(a, b, fs, w, w2, l, y);
      }
    }
  }

  /** The document is mutated at or below `l` only, and nothing else is shifted. */
  ghost predicate ChangesOnly(d: Json, f: Effect, e: Json, l: Place) {
    && (forall x :: !(l <= x) ==> LookAt(d, x) == LookAt(e, x))
    && (forall x :: !(l <= x) ==> Shift(f, x) == Some(x))
  }

  lemma NotBelow(l: Place, p: Place, x: Place)
    requires !(l <= p + x)
    ensures !(l <= p)
  {
  }

  lemma LookInside(d: Json, p: Place, x: Place)
    requires At(d, p).Some?
    ensures LookAt(d, p + x) == LookAt(At(d, p).value, x)
  {
    AtAppend(d, p, x);
  }

  lemma NowAlikeAt(d: Json, f: Effect, e: Json, l: Place, p: Place, x: Place)
    requires ChangesOnly(d, f, e, l) && At(d, p).Some? && !(l <= p + x)
    ensures LookAt(Now(d, Live(p)), x) == LookAt(Now(e, MovedRef(d, f, Live(p))), x)
  {
    NotBelow(l, p, x);
    assert LookAt(d, p) == LookAt(e, p);
    assert LookAt(d, p + x) == LookAt(e, p + x);
    LookInside(d, p, x);
    LookInside(e, p, x);
  }

  lemma NowAlike(d: Json, f: Effect, e: Json, l: Place, p: Place)
    requires ChangesOnly(d, f, e, l) && At(d, p).Some?
    ensures ValuesAlike(Now(d, Live(p)), Now(e, MovedRef(d, f, Live(p))), p, l)
  {
    forall x | !(l <= p + x) ensures LookAt(Now(d, Live(p)), x) == LookAt(Now(e, MovedRef(d, f, Live(p))), x) {
      NowAlikeAt(d, f, e, l, p, x);
    }
  }

  /** Processing the queue in both documents gives copies that look the same except at or below `l`. */
  lemma {:induction false} ReplayAlike(a: Json, b: Json, fs: seq<Effect>, refs: seq<Ref<Json>>, d: Json, f: Effect,
                                       e: Json, l: Place)
    requires |fs| == |refs| && Tidy(fs, refs) && Located(d, refs) && Fitting(a, fs, refs, d) && Alike(a, b, fs, l)
    requires ChangesOnly(d, f, e, l)
    requires Replay(a, fs, refs, d).Some? && Replay(b, fs, MovedRefs(d, f, refs), e).Some?
    ensures Alike(Replay(a, fs, refs, d).value, Replay(b, fs, MovedRefs(d, f, refs), e).value, [], l)
    decreases fs
  {
    if fs != [] {
      var w, w2 := Now(d, refs[0]), Now(e, MovedRef(d, f, refs[0]));
      if !fs[0].op.Remove? && Fate(Target(fs[0]), fs[1..]).Some? {
        NowAlike(d, f, e, l, refs[0].place);
      }
      AlikeStep(a, b, fs, w, w2, l);
      assert MovedRefs(d, f, refs)[1..] == MovedRefs(d, f, refs[1..]);
      ReplayAlike(Patched(a, fs[0], w).value, Patched(b, fs[0], w2).value, fs[1..], refs[1..], d, f, e, l);
    }
  }

  lemma SetShifts(f: Effect, x: Place)
    requires !InsertsOrDeletes(f)
    ensures Shift(f, x) == if Target(f) <= x then None else Some(x)
  {
    if f.base < x {
      var n := |f.base|;
      assert x[..n] == f.base;
      assert x[n] == f.slot <==> Target(f) <= x;
      assert x[n := x[n]] == x;
    }
  }

  lemma SetBacks(f: Effect, x: Place)
    requires !InsertsOrDeletes(f)
    ensures Back(f, x) == if Target(f) <= x then None else Some(x)
  {
    SetShifts(f, x);
    if f.base < x {
      assert x[|f.base| := x[|f.base|]] == x;
    }
  }

  lemma ChangesOnlyTarget(d: Json, f: Effect, v: Json, e: Json)
    requires Makes(d, f, v, e) && !InsertsOrDeletes(f)
    ensures ChangesOnly(d, f, e, Target(f))
  {
    forall x | !(Target(f) <= x) ensures LookAt(d, x) == LookAt(e, x) && Shift(f, x) == Some(x) {
      SetShifts(f, x);
      SetBacks(f, x);
      MakesLooks(d, f, v, e, x);
    }
  }

  lemma ChangesOnlyBase(d: Json, f: Effect, v: Json, e: Json)
    requires Makes(d, f, v, e)
    ensures ChangesOnly(d, f, e, f.base)
  {
    forall x | !(f.base <= x) ensures LookAt(d, x) == LookAt(e, x) && Shift(f, x) == Some(x) {
      MakesLooks(d, f, v, e, x);
    }
  }

  /** Setting what was set already changes nothing more. */
  lemma SetAgain(d: Json, f: Effect, v: Json, e: Json, x: Json)
    requires Makes(d, f, v, e) && !InsertsOrDeletes(f) && FitsAt(d, f) && Alike(d, x, [], Target(f))
    requires Patched(x, f, v).Some?
    ensures Patched(x, f, v) == Some(e)
  {
    var y := Patched(x, f, v).value;
    assert !(Target(f) <= f.base);
    assert Fate(f.base, []) == Some(f.base) && LookAt(d, f.base) == LookAt(x, f.base);
    PatchedMakes(x, f, v, y);
    forall z ensures LookAt(y, z) == LookAt(e, z) {
      assert Fate(z, []) == Some(z);
      SetAgainAt(d, f, v, e, x, y, z);
    }
    SameLooks(y, e);
  }

  lemma SetAgainAt(d: Json, f: Effect, v: Json, e: Json, x: Json, y: Json, z: Place)
    requires Makes(d, f, v, e) && Makes(x, f, v, y) && !InsertsOrDeletes(f)
    requires Target(f) <= z || LookAt(d, z) == LookAt(x, z)
    ensures LookAt(y, z) == LookAt(e, z)
  {
    SetBacks(f, z);
    MakesLooks(d, f, v, e, z);
    MakesLooks(x, f, v, y, z);
  }

  lemma {:induction false} FittingAlike(a: Json, b: Json, fs: seq<Effect>, refs: seq<Ref<Json>>, d: Json, f: Effect,
                                        e: Json)
    requires |fs| == |refs| && Tidy(fs, refs) && Located(d, refs) && Fitting(a, fs, refs, d)
    requires Alike(a, b, fs, Target(f)) && ChangesOnly(d, f, e, Target(f)) && !InsertsOrDeletes(f)
    requires Replay(a, fs, refs, d) == Some(d) && Replay(b, fs, MovedRefs(d, f, refs), e).Some? && FitsAt(d, f)
    ensures Fitting(b, fs + [f], MovedRefs(d, f, refs) + [NewRef(f)], e)
    decreases fs
  {
    var moved, l := MovedRefs(d, f, refs), Target(f);
    if fs == [] {
      assert [] + [f] == [f] && moved + [NewRef(f)] == [NewRef(f)];
      assert !(l <= f.base);
      assert Fate(f.base, []) == Some(f.base) && LookAt(d, f.base) == LookAt(b, f.base);
    } else {
      assert (fs + [f])[1..] == fs[1..] + [f] && (moved + [NewRef(f)])[1..] == moved[1..] + [NewRef(f)];
      assert moved[1..] == MovedRefs(d, f, refs[1..]);
      FateAppend(fs[0].base, fs, f);
      if Fate(fs[0].base, fs + [f]).Some? {
        SetShifts(f, Fate(fs[0].base, fs).value);
        BothFit(a, b, fs, l);
      }
      var w, w2 := Now(d, refs[0]), Now(e, moved[0]);
      if !fs[0].op.Remove? && Fate(Target(fs[0]), fs[1..]).Some? {
        NowAlike(d, f, e, l, refs[0].place);
      }
      AlikeStep(a, b, fs, w, w2, l);
      FittingAlike(Patched(a, fs[0], w).value, Patched(b, fs[0], w2).value, fs[1..], refs[1..], d, f, e);
    }
  }

  // ---------------------------------------------------------------- list items inside a queued value

  /** What overwrites a place inside `x` is live, or was overwritten itself. */
  lemma {:induction false} Overwritten(x: Place, y: Place, fs: seq<Effect>, refs: seq<Ref<Json>>)
    requires |fs| == |refs| && Tidy(fs, refs) && x <= y && QuietFor(x, fs)
    requires Fate(x, fs).Some? && Fate(y, fs).None?
    ensures Holds(refs, Fate(x, fs).value + y[|x|..])
    decreases fs
  {
    var f := fs[0];
    HoldsMore(refs, Fate(x, fs).value + y[|x|..]);
    if Shift(f, y).Some? {
      ShiftPrefix(f, x, y);
      ShiftBelow(f, x, y);
      Overwritten(Shift(f, x).value, Shift(f, y).value, fs[1..], refs[1..]);
    } else {
      OverwrittenNow(x, y, f);
      var t := Target(f);
      assert y[|x|..][..|t| - |x|] == t[|x|..];
      if Fate(t, fs[1..]).Some? {
        FateBelow(x, t, fs[1..]);
      } else {
        Overwritten(x, t, fs[1..], refs[1..]);
        HoldsBelow(refs[1..], Fate(x, fs).value + t[|x|..], Fate(x, fs).value + y[|x|..]);
      }
    }
  }

  lemma ShiftAbove(f: Effect, x: Place, y: Place)
    requires f.base < x <= y
    ensures Shift(f, x).Some? <==> Shift(f, y).Some?
  {
    assert x[|f.base|] == y[|f.base|];
  }

  lemma PrefixesNest(x: Place, z: Place, y: Place)
    requires x <= y && z <= y && !(z < x)
    ensures x <= z
  {
    assert x == y[..|x|] && z == y[..|z|];
    assert |x| <= |z| ==> x == z[..|x|];
    assert |z| <= |x| ==> z == x[..|z|];
  }

  lemma OverwrittenNow(x: Place, y: Place, f: Effect)
    requires x <= y && Shift(f, x).Some? && Shift(f, y).None? && (x <= f.base ==> IsSet(f))
    ensures x <= f.base && Shift(f, x) == Some(x) && x <= Target(f) <= y
  {
    if f.base < x {
      ShiftAbove(f, x, y);
    }
    PrefixesNest(x, f.base, y);
    SetShifts(f, y);
  }

  lemma HoldsBelow(refs: seq<Ref<Json>>, p: Place, q: Place)
    requires Holds(refs, p) && p <= q
    ensures Holds(refs, q)
  {
    var i :| 0 <= i < |refs| && refs[i].Live? && refs[i].place <= p;
    assert refs[i].place == p[..|refs[i].place|] == q[..|refs[i].place|];
  }

  lemma KindStep(a: Json, f: Effect, w: Json, b: Json, x: Place, later: seq<Effect>)
    requires Patched(a, f, w) == Some(b) && (Fate(f.base, later).Some? ==> FitsAt(a, f))
    requires Shift(f, x).Some? && Fate(Shift(f, x).value, later).Some?
    ensures LookAt(b, Shift(f, x).value).ListOf? <==> LookAt(a, x).ListOf?
  {
    var y := Shift(f, x).value;
    if f.base <= x {
      ShiftPrefix(f, f.base, x);
      FatePrefix(f.base, y, later);
      PatchedMakes(a, f, w, b);
      if f.base == x {
        MakesLooks(a, f, w, b, x);
      } else {
        ShiftedThere(a, f, w, At(b, f.base).value, x);
      }
    } else {
      PatchedElsewhere(a, f, w, b, x);
    }
  }

  /** A place that survives holds a list exactly if it does so at the end. */
  lemma {:induction false} KindPersists(a: Json, fs: seq<Effect>, refs: seq<Ref<Json>>, d: Json, x: Place)
    requires |fs| == |refs| && Fitting(a, fs, refs, d) && Replay(a, fs, refs, d).Some? && Fate(x, fs).Some?
    ensures LookAt(a, x).ListOf? <==> LookAt(Replay(a, fs, refs, d).value, Fate(x, fs).value).ListOf?
    decreases fs
  {
    if fs != [] {
      var w := Now(d, refs[0]);
      KindStep(a, fs[0], w, Patched(a, fs[0], w).value, x, fs[1..]);
      KindPersists(Patched(a, fs[0], w).value, fs[1..], refs[1..], d, Shift(fs[0], x).value);
    }
  }

  /** The containers of a patch in both documents, if a place at or below it comes to `p`, where only what is at or
      below `p` may differ. */
  lemma FitsBelow(a: Json, b: Json, fs: seq<Effect>, p: Place, y: Place)
    requires fs != [] && Alike(a, b, fs, p) && (Fate(fs[0].base, fs).Some? ==> FitsAt(a, fs[0]))
    requires fs[0].base < y && Fate(y, fs[1..]).Some? && Fate(y, fs[1..]).value <= p
    ensures FitsAt(b, fs[0])
  {
    FatePrefix(fs[0].base, y, fs[1..]);
    BothFit(a, b, fs, p);
  }

  /** A queued value that holds the list at `p` brings its present length along. */
  lemma LengthFromValue(a: Json, b: Json, fs: seq<Effect>, p: Place, q: Place, e: Json, w: Json, b1: Json)
    requires fs != [] && Alike(a, b, fs, p) && (Fate(fs[0].base, fs).Some? ==> FitsAt(a, fs[0]))
    requires !fs[0].op.Remove? && Fate(Target(fs[0]), fs[1..]) == Some(q) && q <= p
    requires At(e, q) == Some(w) && Patched(b, fs[0], w) == Some(b1)
    ensures LookAt(b1, Target(fs[0]) + p[|q|..]) == LookAt(e, p)
  {
    var f := fs[0];
    FitsBelow(a, b, fs, p, Target(f));
    PatchedMakes(b, f, w, b1);
    TargetMade(b, f, w, b1);
    LookInside(b1, Target(f), p[|q|..]);
    LookInside(e, q, p[|q|..]);
    assert p == q + p[|q|..];
  }

  /** A patch that does not overwrite the list leaves its length. */
  lemma LengthStays(a: Json, b: Json, fs: seq<Effect>, p: Place, x: Place, w: Json, b1: Json)
    requires fs != [] && Alike(a, b, fs, p) && (Fate(fs[0].base, fs).Some? ==> FitsAt(a, fs[0]))
    requires Fate(x, fs) == Some(p) && QuietFor(x, fs) && LookAt(b, x).ListOf? && LookAt(a, x).ListOf?
    requires Patched(b, fs[0], w) == Some(b1)
    ensures LookAt(b1, Shift(fs[0], x).value) == LookAt(b, x)
  {
    var f := fs[0];
    if f.base < x {
      ShiftPrefix(f, f.base, x);
      FitsBelow(a, b, fs, p, Shift(f, x).value);
      PatchedMakes(b, f, w, b1);
      ShiftedThere(b, f, w, At(b1, f.base).value, x);
    } else if f.base == x {
      PatchedMakes(b, f, w, b1);
      MakesLooks(b, f, w, b1, x);
    } else {
      PatchedElsewhere(b, f, w, b1, x);
    }
  }

  /** The list at `p` in a queued value arrives with its present length. */
  lemma {:induction false} LengthArrives(a: Json, b: Json, fs: seq<Effect>, refs: seq<Ref<Json>>, d: Json, f: Effect,
                                         e: Json, x: Option<Place>)
    requires |fs| == |refs| && Tidy(fs, refs) && Located(d, refs) && Fitting(a, fs, refs, d) && Alike(a, b, fs, f.base)
    requires ChangesOnly(d, f, e, f.base) && LookAt(d, f.base).ListOf? && LookAt(e, f.base).ListOf?
    requires Replay(a, fs, refs, d) == Some(d) && Replay(b, fs, MovedRefs(d, f, refs), e).Some?
    requires x.None? ==> Holds(refs, f.base)
    requires x.Some? ==> Fate(x.value, fs) == Some(f.base) && QuietFor(x.value, fs)
                         && LookAt(b, x.value) == LookAt(e, f.base)
    ensures LookAt(Replay(b, fs, MovedRefs(d, f, refs), e).value, f.base) == LookAt(e, f.base)
    decreases fs
  {
    if fs != [] {
      var p, moved := f.base, MovedRefs(d, f, refs);
      var w, w2 := Now(d, refs[0]), Now(e, moved[0]);
      var a1, b1 := Patched(a, fs[0], w).value, Patched(b, fs[0], w2).value;
      var next := NextTracked(a, b, fs, refs, d, f, e, x);
      assert moved[1..] == MovedRefs(d, f, refs[1..]);
      if !fs[0].op.Remove? && Fate(Target(fs[0]), fs[1..]).Some? {
        NowAlike(d, f, e, p, refs[0].place);
      }
      AlikeStep(a, b, fs, w, w2, p);
      LengthArrives(a1, b1, fs[1..], refs[1..], d, f, e, next);
    }
  }

  lemma NextTracked(a: Json, b: Json, fs: seq<Effect>, refs: seq<Ref<Json>>, d: Json, f: Effect, e: Json,
                    x: Option<Place>) returns (next: Option<Place>)
    requires |fs| == |refs| && fs != [] && Tidy(fs, refs) && Located(d, refs) && Fitting(a, fs, refs, d)
    requires Alike(a, b, fs, f.base) && LookAt(d, f.base).ListOf? && LookAt(e, f.base).ListOf?
    requires ChangesOnly(d, f, e, f.base) && Replay(a, fs, refs, d) == Some(d)
    requires Patched(b, fs[0], Now(e, MovedRef(d, f, refs[0]))).Some?
    requires x.None? ==> Holds(refs, f.base)
    requires x.Some? ==> Fate(x.value, fs) == Some(f.base) && QuietFor(x.value, fs)
                         && LookAt(b, x.value) == LookAt(e, f.base)
    ensures var b1 := Patched(b, fs[0], Now(e, MovedRef(d, f, refs[0]))).value;
      && (next.None? ==> Holds(refs[1..], f.base))
      && (next.Some? ==> Fate(next.value, fs[1..]) == Some(f.base) && QuietFor(next.value, fs[1..])
                         && LookAt(b1, next.value) == LookAt(e, f.base))
  {
    var p := f.base;
    HoldsMore(refs, p);
    if refs[0].Live? && refs[0].place <= p {
      next := TrackedValue(a, b, fs, refs, d, f, e);
    } else if Holds(refs[1..], p) {
      next := None;
    } else {
      var w2 := Now(e, MovedRef(d, f, refs[0]));
      KindPersists(a, fs, refs, d, x.value);
      LengthStays(a, b, fs, p, x.value, w2, Patched(b, fs[0], w2).value);
      next := Shift(fs[0], x.value);
    }
  }

  lemma TrackedValue(a: Json, b: Json, fs: seq<Effect>, refs: seq<Ref<Json>>, d: Json, f: Effect, e: Json)
    returns (next: Option<Place>)
    requires |fs| == |refs| && fs != [] && Tidy(fs, refs) && Located(d, refs) && Fitting(a, fs, refs, d)
    requires Alike(a, b, fs, f.base) && LookAt(e, f.base).ListOf? && ChangesOnly(d, f, e, f.base)
    requires Patched(b, fs[0], Now(e, MovedRef(d, f, refs[0]))).Some?
    requires refs[0].Live? && refs[0].place <= f.base
    ensures var b1 := Patched(b, fs[0], Now(e, MovedRef(d, f, refs[0]))).value;
      && (next.None? ==> Holds(refs[1..], f.base))
      && (next.Some? ==> Fate(next.value, fs[1..]) == Some(f.base) && QuietFor(next.value, fs[1..])
                         && LookAt(b1, next.value) == LookAt(e, f.base))
  {
    var p, q, t := f.base, refs[0].place, Target(fs[0]);
    var y := t + p[|q|..];
    assert y[|t|..] == p[|q|..] && p == q + p[|q|..];
    AtPrefix(e, q, p);
    var w2 := At(e, q).value;
    LengthFromValue(a, b, fs, p, q, e, w2, Patched(b, fs[0], w2).value);
    QuietBelow(t, y, fs[1..]);
    if Fate(y, fs[1..]).Some? {
      FateBelow(t, y, fs[1..]);
      next := Some(y);
    } else {
      Overwritten(t, y, fs[1..], refs[1..]);
      next := None;
    }
  }

  lemma ItemsCounted(c: Json, op: Op, t: string, v: Json)
    requires c.Arr? && !op.Replace? && ApplyHere(c, op, t, v).Some?
    ensures LookAt(ApplyHere(c, op, t, v).value, []) != LookAt(c, [])
  {
  }

  /** After a mutation inside a queued value the queue leads to the document exactly if no list item was inserted or
      deleted and every queued patch can still be applied. */
  lemma InsideIff(a: Json, fs: seq<Effect>, refs: seq<Ref<Json>>, d: Json, p: Place, m: Mutation)
    requires Inv(a, fs, refs, d) && At(d, p).Some? && Mutated(At(d, p).value, m).Some? && Holds(refs, p)
    ensures var f, e := EffectOf(p, At(d, p).value, m), Put(d, p, Mutated(At(d, p).value, m).value);
      var after := Replay(a, fs + [f], MovedRefs(d, f, refs) + [NewRef(f)], e);
      after == Some(e) <==> after.Some? && !InsertsOrDeletes(f)
  {
    var c := At(d, p).value;
    var f, e, v := EffectOf(p, c, m), Put(d, p, Mutated(c, m).value), Emitted("", c, m).value;
    var moved := MovedRefs(d, f, refs);
    MutationMakes(d, p, m);
    ReplayAppend(a, fs, moved, e, f, NewRef(f));
    var x := Replay(a, fs, moved, e);
    if x.Some? && Patched(x.value, f, Now(e, NewRef(f))).Some? {
      if InsertsOrDeletes(f) {
        ListMutatedInside(a, fs, refs, d, f, v, e);
        OneItemMore(x.value, f, Now(e, NewRef(f)), e);
      } else {
        SetInside(a, fs, refs, d, p, m);
      }
    }
  }

  lemma OneItemMore(x: Json, f: Effect, w: Json, e: Json)
    requires InsertsOrDeletes(f) && LookAt(x, f.base).ListOf? && LookAt(x, f.base) == LookAt(e, f.base)
    requires Patched(x, f, w).Some?
    ensures Patched(x, f, w).value != e
  {
    StalePaths.ApplyAnywhere(x, f.op, f.base, f.token, w);
    var c := At(x, f.base).value;
    ItemsCounted(c, f.op, f.token, w);
    StalePaths.AtPut(x, f.base, ApplyHere(c, f.op, f.token, w).value);
  }

  lemma ListMutatedInside(a: Json, fs: seq<Effect>, refs: seq<Ref<Json>>, d: Json, f: Effect, v: Json, e: Json)
    requires Inv(a, fs, refs, d) && Makes(d, f, v, e) && Holds(refs, f.base) && InsertsOrDeletes(f)
    requires At(d, f.base).value.Arr? && Replay(a, fs, MovedRefs(d, f, refs), e).Some?
    ensures LookAt(Replay(a, fs, MovedRefs(d, f, refs), e).value, f.base) == LookAt(e, f.base)
    ensures LookAt(e, f.base).ListOf?
  {
    ChangesOnlyBase(d, f, v, e);
    MakesLooks(d, f, v, e, f.base);
    LengthArrives(a, a, fs, refs, d, f, e, None);
  }

  lemma SetInside(a: Json, fs: seq<Effect>, refs: seq<Ref<Json>>, d: Json, p: Place, m: Mutation)
    requires Inv(a, fs, refs, d) && At(d, p).Some? && Mutated(At(d, p).value, m).Some?
    requires var f, e := EffectOf(p, At(d, p).value, m), Put(d, p, Mutated(At(d, p).value, m).value);
      var x := Replay(a, fs, MovedRefs(d, f, refs), e);
      !InsertsOrDeletes(f) && x.Some? && Patched(x.value, f, Now(e, NewRef(f))).Some?
    ensures var f, e := EffectOf(p, At(d, p).value, m), Put(d, p, Mutated(At(d, p).value, m).value);
      && FitsAt(d, f)
      && Patched(Replay(a, fs, MovedRefs(d, f, refs), e).value, f, Now(e, NewRef(f))) == Some(e)
  {
    var c := At(d, p).value;
    var f, e, v := EffectOf(p, c, m), Put(d, p, Mutated(c, m).value), Emitted("", c, m).value;
    var x := Replay(a, fs, MovedRefs(d, f, refs), e).value;
    MutationMakes(d, p, m);
    ChangesOnlyTarget(d, f, v, e);
    ReplayAlike(a, a, fs, refs, d, f, e, Target(f));
    PatchedFits(d, x, p, m, Now(e, NewRef(f)));
    NewValue(d, f, v, e);
    SetAgain(d, f, v, e, x);
  }

  lemma NewValue(d: Json, f: Effect, v: Json, e: Json)
    requires Makes(d, f, v, e)
    ensures f.op.Remove? || Now(e, NewRef(f)) == v
  {
    if !f.op.Remove? {
      TargetMade(d, f, v, e);
    }
  }

  /** A patch that sets something and can be applied was published properly. */
  lemma PatchedFits(d: Json, x: Json, p: Place, m: Mutation, w: Json)
    requires At(d, p).Some? && Mutated(At(d, p).value, m).Some?
    requires Alike(d, x, [], Target(EffectOf(p, At(d, p).value, m)))
    requires var f := EffectOf(p, At(d, p).value, m); !InsertsOrDeletes(f) && Patched(x, f, w).Some?
    ensures FitsAt(d, EffectOf(p, At(d, p).value, m))
  {
    var c := At(d, p).value;
    var f := EffectOf(p, c, m);
    MutationFits(p, c, m);
    assert Fate(p, []) == Some(p) && !(Target(f) <= p) && LookAt(d, p) == LookAt(x, p);
    StalePaths.ApplyAnywhere(x, f.op, f.base, f.token, w);
    if m.SetItem? && m.i < 0 {
      NegativeToken(m.i);
    }
  }

  /** And if something was set, so it stays. */
  lemma SetInsideKeepsInv(a: Json, fs: seq<Effect>, refs: seq<Ref<Json>>, d: Json, p: Place, m: Mutation)
    requires Inv(a, fs, refs, d) && At(d, p).Some? && Mutated(At(d, p).value, m).Some?
    requires var f, e := EffectOf(p, At(d, p).value, m), Put(d, p, Mutated(At(d, p).value, m).value);
      IsSet(f) && Replay(a, fs + [f], MovedRefs(d, f, refs) + [NewRef(f)], e).Some?
    ensures var f, e := EffectOf(p, At(d, p).value, m), Put(d, p, Mutated(At(d, p).value, m).value);
      Inv(a, fs + [f], MovedRefs(d, f, refs) + [NewRef(f)], e)
  {
    var c := At(d, p).value;
    var f, e, v := EffectOf(p, c, m), Put(d, p, Mutated(c, m).value), Emitted("", c, m).value;
    var moved := MovedRefs(d, f, refs);
    MutationMakes(d, p, m);
    ReplayAppend(a, fs, moved, e, f, NewRef(f));
    SetInside(a, fs, refs, d, p, m);
    ChangesOnlyTarget(d, f, v, e);
    FittingAlike(a, a, fs, refs, d, f, e);
    TidyAppend(d, fs, refs, f);
    LocatedAppend(d, refs, f, v, e);
  }

  /** A mutation outside the queued values keeps the queue leading to the document exactly if it is published
      properly. */
  lemma OutsideIff(a: Json, fs: seq<Effect>, refs: seq<Ref<Json>>, d: Json, p: Place, m: Mutation)
    requires Inv(a, fs, refs, d) && At(d, p).Some? && Mutated(At(d, p).value, m).Some? && !Holds(refs, p)
    ensures var f, e := EffectOf(p, At(d, p).value, m), Put(d, p, Mutated(At(d, p).value, m).value);
      Inv(a, fs + [f], MovedRefs(d, f, refs) + [NewRef(f)], e) <==> Published(At(d, p).value, m)
  {
    var c := At(d, p).value;
    var f, e, v := EffectOf(p, c, m), Put(d, p, Mutated(c, m).value), Emitted("", c, m).value;
    MutationMakes(d, p, m);
    MutationFits(p, c, m);
    EmittedHere("", c, m);
    NewValue(d, f, v, e);
    OutsideReplay(a, fs, refs, d, f, v, e);
    ReplayAppend(a, fs, MovedRefs(d, f, refs), e, f, NewRef(f));
    StalePaths.ApplyAnywhere(d, f.op, p, f.token, v);
    if Published(c, m) {
      OutsideKeepsInvIff(a, fs, refs, d, f, v, e);
    }
  }

  /** The next patch can be applied. */
  lemma ProcessKeepsInv(a: Json, fs: seq<Effect>, refs: seq<Ref<Json>>, d: Json)
    requires Inv(a, fs, refs, d) && fs != []
    ensures var b := Patched(a, fs[0], Now(d, refs[0])); b.Some? && Inv(b.value, fs[1..], refs[1..], d)
  {
  }

  // ---------------------------------------------------------------- a mutation inside the value queued last

  lemma {:induction false} InvFront(a: Json, fs: seq<Effect>, refs: seq<Ref<Json>>, d: Json)
    requires |fs| == |refs| && fs != [] && Tidy(fs, refs) && Fitting(a, fs, refs, d) && Replay(a, fs, refs, d).Some?
    ensures var n := |fs| - 1; var x := Replay(a, fs[..n], refs[..n], d);
      && x.Some? && FitsAt(x.value, fs[n]) && RefFits(fs[n], refs[n], [])
      && Patched(x.value, fs[n], Now(d, refs[n])) == Replay(a, fs, refs, d)
    decreases fs
  {
    var n := |fs| - 1;
    if n > 0 {
      InvFront(Patched(a, fs[0], Now(d, refs[0])).value, fs[1..], refs[1..], d);
      assert fs[..n][1..] == fs[1..][..n - 1] && refs[..n][1..] == refs[1..][..n - 1];
    } else {
      assert fs[1..] == [];
      assert Fate(fs[0].base, fs) == Some(fs[0].base);
    }
  }

  lemma TargetIsNew(f: Effect, y: Place)
    requires Target(f) <= y && !f.op.Remove?
    ensures f.base < y && Back(f, y).None? && y[|f.base| + 1..] == y[|Target(f)|..]
  {
    assert y[|f.base|] == f.slot && f.base == y[..|f.base|];
  }

  lemma AnyValueApplies(a: Json, f: Effect, v: Json, w: Json)
    requires Patched(a, f, v).Some?
    ensures Patched(a, f, w).Some?
  {
    StalePaths.ApplyAnywhere(a, f.op, f.base, f.token, v);
    StalePaths.ApplyAnywhere(a, f.op, f.base, f.token, w);
  }

  lemma NewerValueLooks(x: Json, g: Effect, w: Json, w2: Json, d: Json, y: Json, z: Place)
    requires Makes(x, g, w, d) && Makes(x, g, w2, y) && !(Target(g) <= z) && !g.op.Remove?
    ensures LookAt(y, z) == LookAt(d, z)
  {
    MakesLooks(x, g, w, d, z);
    MakesLooks(x, g, w2, y, z);
    if g.base < z && Back(g, z).None? {
      BackNone(g, z);
    }
  }

  lemma NewerValueInside(x: Json, g: Effect, e: Json, y: Json, z: Place)
    requires At(e, Target(g)).Some? && Makes(x, g, At(e, Target(g)).value, y) && Target(g) <= z && !g.op.Remove?
    ensures LookAt(y, z) == LookAt(e, z)
  {
    TargetIsNew(g, z);
    MakesLooks(x, g, At(e, Target(g)).value, y, z);
    AtCut(e, Target(g), z);
  }

  /** A patch that brings its value as it is in `e` instead of `d`, which differ only inside it, leads to `e`. */
  lemma NewerValue(x: Json, g: Effect, w: Json, d: Json, e: Json, p: Place)
    requires FitsAt(x, g) && !g.op.Remove? && Patched(x, g, w) == Some(d) && Target(g) <= p
    requires At(e, Target(g)).Some? && forall z :: !(p <= z) ==> LookAt(d, z) == LookAt(e, z)
    ensures Patched(x, g, At(e, Target(g)).value) == Some(e)
  {
    var w2 := At(e, Target(g)).value;
    AnyValueApplies(x, g, w, w2);
    var y := Patched(x, g, w2).value;
    PatchedMakes(x, g, w, d);
    PatchedMakes(x, g, w2, y);
    forall z ensures LookAt(y, z) == LookAt(e, z) {
      if Target(g) <= z {
        NewerValueInside(x, g, e, y, z);
      } else {
        NewerValueLooks(x, g, w, w2, d, y, z);
        NotPast(Target(g), p, z);
      }
    }
    SameLooks(y, e);
  }

  lemma NotPast(t: Place, p: Place, z: Place)
    requires t <= p && !(t <= z)
    ensures !(p <= z)
  {
  }

  /** Doing it twice. */
  lemma TwiceIff(c: Json, m: Mutation)
    requires Mutated(c, m).Some?
    ensures var h, e := Mutated(c, m).value, Emitted("", c, m);
      ApplyHere(h, e.op, LastToken(c, m), e.value) == Some(h) <==> m.SetKey? || m.SetAttr? || (m.SetItem? && m.i >= 0)
  {
    var h, e := Mutated(c, m).value, Emitted("", c, m);
    match m
    case SetKey(k, v) => assert h.fields[k := v] == h.fields;
    case SetAttr(k, v) => assert h.fields[k := v] == h.fields;
    case SetItem(i, v) =>
      if i < 0 {
        NegativeToken(i);
      } else {
        IndexRoundTrip(i);
        assert h.items[i := v] == h.items;
      }
    case DeleteKey(k) => assert k !in h.fields;
    case _ =>
      if ApplyHere(h, e.op, LastToken(c, m), e.value).Some? {
        ItemsCounted(h, e.op, LastToken(c, m), e.value);
      }
  }

  lemma PutSame(e: Json, p: Place, h: Json)
    requires At(e, p).Some?
    ensures Put(e, p, h) == e <==> h == At(e, p).value
  {
    if h != At(e, p).value {
      StalePaths.PutChanges(e, p, h);
    } else {
      forall z ensures LookAt(Put(e, p, h), z) == LookAt(e, z) {
        if p <= z {
          PutInside(e, p, h, z);
          AtCut(e, p, z);
        } else if z <= p {
          PutAbove(e, p, h, z);
        } else {
          PutElsewhere(e, p, h, z);
        }
      }
      SameLooks(Put(e, p, h), e);
    }
  }

  /** A mutation inside the value queued last, and no other: the value arrives with the mutation in it, and the
      mutation's own patch then changes nothing more exactly if it sets a key, an attribute, or an item by an index that
      is not negative. Inserting or deleting an item happens twice, and deleting a key fails. */
  lemma JustQueuedIff(a: Json, fs: seq<Effect>, refs: seq<Ref<Json>>, d: Json, p: Place, m: Mutation)
    requires Inv(a, fs, refs, d) && fs != [] && At(d, p).Some? && Mutated(At(d, p).value, m).Some?
    requires refs[|refs| - 1].Live? && refs[|refs| - 1].place <= p && !Holds(refs[..|refs| - 1], p)
    ensures var f, e := EffectOf(p, At(d, p).value, m), Put(d, p, Mutated(At(d, p).value, m).value);
      Replay(a, fs + [f], MovedRefs(d, f, refs) + [NewRef(f)], e) == Some(e) <==>
        m.SetKey? || m.SetAttr? || (m.SetItem? && m.i >= 0)
  {
    var c := At(d, p).value;
    var f, e, v := EffectOf(p, c, m), Put(d, p, Mutated(c, m).value), Emitted("", c, m).value;
    MutationMakes(d, p, m);
    JustQueuedReplay(a, fs, refs, d, f, v, e);
    ReplayAppend(a, fs, MovedRefs(d, f, refs), e, f, NewRef(f));
    NewValue(d, f, v, e);
    StalePaths.AtPut(d, p, Mutated(c, m).value);
    StalePaths.ApplyAnywhere(e, f.op, p, f.token, v);
    TwiceIff(c, m);
    if ApplyHere(At(e, p).value, f.op, f.token, v).Some? {
      PutSame(e, p, ApplyHere(At(e, p).value, f.op, f.token, v).value);
    }
  }

  lemma JustQueuedReplay(a: Json, fs: seq<Effect>, refs: seq<Ref<Json>>, d: Json, f: Effect, v: Json, e: Json)
    requires Inv(a, fs, refs, d) && fs != [] && Makes(d, f, v, e)
    requires refs[|refs| - 1].Live? && refs[|refs| - 1].place <= f.base && !Holds(refs[..|refs| - 1], f.base)
    ensures Replay(a, fs, MovedRefs(d, f, refs), e) == Some(e)
  {
    var n, moved := |fs| - 1, MovedRefs(d, f, refs);
    var g := fs[n];
    InvFront(a, fs, refs, d);
    var x := Replay(a, fs[..n], refs[..n], d).value;
    forall i | 0 <= i < n ensures Now(d, refs[..n][i]) == Now(e, moved[..n][i]) {
      assert refs[..n][i] == refs[i];
      NowKept(d, f, v, e, refs[i]);
    }
    SameValuesReplay(a, fs[..n], refs[..n], d, moved[..n], e);
    assert fs == fs[..n] + [g] && moved == moved[..n] + [moved[n]];
    ReplayAppend(a, fs[..n], moved[..n], e, g, moved[n]);
    assert Target(g) == refs[n].place;
    MovedLocated(d, f, v, e, Target(g));
    ChangesOnlyBase(d, f, v, e);
    NewerValue(x, g, Now(d, refs[n]), d, e, f.base);
  }

  // ---------------------------------------------------------------- two runs

  datatype Sys = Sys(copy: Json, fs: seq<Effect>, refs: seq<Ref<Json>>, doc: Json)

  /** A mutation that is queued. */
  function Mutate(s: Sys, p: Place, m: Mutation): Sys
    requires At(s.doc, p).Some? && Mutated(At(s.doc, p).value, m).Some?
  {
    var c := At(s.doc, p).value;
    var f := EffectOf(p, c, m);
    Sys(s.copy, s.fs + [f], MovedRefs(s.doc, f, s.refs) + [NewRef(f)], Put(s.doc, p, Mutated(c, m).value))
  }

  predicate Paired(s: Sys) {
    |s.fs| == |s.refs|
  }

  lemma RootMember(m: map<string, Json>, k: string)
    requires k in m
    ensures At(Obj(m), [k]) == Some(m[k]) && forall v :: Put(Obj(m), [k], v) == Obj(m[k := v])
  {
    assert [k][1..] == [];
    assert At(m[k], []) == Some(m[k]);
  }

  /** Assigning an empty list to an attribute and appending to it at once: the copy gets the item twice. */
  lemma AppendedTwice(fields: map<string, Json>, k: string, v: Json)
    requires k in fields
    ensures At(Obj(fields[k := Arr([])]), [k]) == Some(Arr([]))
    ensures var s := Mutate(Mutate(Sys(Obj(fields), [], [], Obj(fields)), [], Mutation.SetAttr(k, Arr([]))), [k],
                            Mutation.Append(v));
      && s.doc == Obj(fields[k := Arr([v])])
      && Paired(s) && Replay(s.copy, s.fs, s.refs, s.doc) == Some(Obj(fields[k := Arr([v, v])]))
  {
    var d0, d1, d2 := Obj(fields), Obj(fields[k := Arr([])]), Obj(fields[k := Arr([v])]);
    RootMember(d1.fields, k);
    RootMember(d2.fields, k);
    assert d1.fields[k := Arr([v])] == d2.fields && Arr([]).items + [v] == [v];
    var s1 := Mutate(Sys(d0, [], [], d0), [], Mutation.SetAttr(k, Arr([])));
    var s := Mutate(s1, [k], Mutation.Append(v));
    var f1, f2 := s.fs[0], s.fs[1];
    assert MovedRefs(d0, f1, []) == [] && Target(f1) == [k] && s1.refs == [Live([k])];
    assert Shift(f2, [k]) == Some([k]) && MovedRefs(d1, f2, s1.refs) == [Live([k])];
    assert s.fs == [f1] + [f2] && s.refs == [Live([k])] + [NewRef(f2)];
    MutationMakes(d1, [k], Mutation.Append(v));
    NewValue(d1, f2, v, d2);
    AppendReplayed(fields, k, v, f1, f2);
    ReplayAppend(d0, [f1], [Live([k])], d2, f2, NewRef(f2));
  }

  lemma AppendReplayed(fields: map<string, Json>, k: string, v: Json, f1: Effect, f2: Effect)
    requires k in fields && f1.op == Replace && f1.base == [] && f1.token == k
    requires f2.op == Add && f2.base == [k] && f2.token == "-"
    ensures var d2 := Obj(fields[k := Arr([v])]);
      && Replay(Obj(fields), [f1], [Live([k])], d2) == Some(d2)
      && Patched(d2, f2, v) == Some(Obj(fields[k := Arr([v, v])]))
  {
    var d2 := Obj(fields[k := Arr([v])]);
    RootMember(d2.fields, k);
    StalePaths.ApplyAnywhere(Obj(fields), Replace, [], k, Arr([v]));
    assert Patched(Obj(fields), f1, Arr([v])) == Some(d2);
    StalePaths.ApplyAnywhere(d2, Add, [k], "-", v);
    assert [v][..1] + [v] + [v][1..] == [v, v];
    assert d2.fields[k := Arr([v, v])] == fields[k := Arr([v, v])];
  }

  function One(k: string, v: Json): Json {
    Obj(map[k := v])
  }

  lemma InnerMember(fields: map<string, Json>, k: string, x: string, inner: Json)
    ensures var d := Obj(fields[k := One(x, inner)]);
      && At(d, [k, x]) == Some(inner)
      && forall v :: Put(d, [k, x], v) == Obj(fields[k := One(x, v)])
  {
    var d := Obj(fields[k := One(x, inner)]);
    RootMember(map[x := inner], x);
    assert [k, x][0] == k && [k, x][1..] == [x];
    forall v ensures Put(d, [k, x], v) == Obj(fields[k := One(x, v)]) {
      assert map[x := inner][x := v] == map[x := v];
      assert d.fields[k := One(x, v)] == fields[k := One(x, v)];
    }
  }

  /** Assigning an object to an attribute, then to a member of a member of it, then to that member: the second patch
      goes into what the first one, by then, does not have any more, and the processor dies. */
  lemma SetTooSoon(fields: map<string, Json>, k: string, x: string, y: string, v: Json, w: Json)
    requires k in fields
    ensures At(Obj(fields[k := One(x, One(y, v))]), [k, x]) == Some(One(y, v))
    ensures At(Obj(fields[k := One(x, One(y, w))]), [k]) == Some(One(x, One(y, w)))
    ensures var s1 := Mutate(Sys(Obj(fields), [], [], Obj(fields)), [], Mutation.SetAttr(k, One(x, One(y, v))));
      && s1.doc == Obj(fields[k := One(x, One(y, v))])
      && var s2 := Mutate(s1, [k, x], Mutation.SetAttr(y, w));
         && s2.doc == Obj(fields[k := One(x, One(y, w))])
         && var s := Mutate(s2, [k], Mutation.SetAttr(x, Null));
            && s.doc == Obj(fields[k := One(x, Null)])
            && Paired(s) && Replay(s.copy, s.fs, s.refs, s.doc) == None
  {
    var d0, d3 := Obj(fields), Obj(fields[k := One(x, Null)]);
    InnerMember(fields, k, x, One(y, v));
    var s1 := Mutate(Sys(d0, [], [], d0), [], Mutation.SetAttr(k, One(x, One(y, v))));
    assert map[y := v][y := w] == map[y := w];
    var s2 := Mutate(s1, [k, x], Mutation.SetAttr(y, w));
    RootMember(s2.doc.fields, k);
    assert map[x := One(y, w)][x := Null] == map[x := Null];
    assert s2.doc.fields[k := One(x, Null)] == d3.fields;
    var s := Mutate(s2, [k], Mutation.SetAttr(x, Null));
    var f1, f2 := s.fs[0], s.fs[1];
    assert MovedRefs(d0, f1, []) == [] && Target(f1) == [k] && s1.refs == [Live([k])];
    assert !([k, x] < [k]);
    assert s2.refs[0] == Live([k]) && s.refs[0] == Live([k]);
    SetReplayedTooSoon(fields, k, x, y, f1, f2, s.fs, s.refs);
  }

  lemma {:induction false} SetReplayedTooSoon(fields: map<string, Json>, k: string, x: string, y: string, f1: Effect,
                                              f2: Effect, fs: seq<Effect>, refs: seq<Ref<Json>>)
    requires k in fields && f1.op == Replace && f1.base == [] && f1.token == k
    requires f2.op == Replace && f2.base == [k, x] && f2.token == y
    requires |fs| == |refs| && |fs| > 1 && fs[0] == f1 && fs[1] == f2 && refs[0] == Live([k])
    ensures Replay(Obj(fields), fs, refs, Obj(fields[k := One(x, Null)])) == None
  {
    var d3 := Obj(fields[k := One(x, Null)]);
    FirstSet(fields, k, x, f1, refs[0]);
    NothingInNull(fields, k, x, y, f2, Now(d3, refs[1]));
    assert Replay(d3, fs[1..], refs[1..], d3) == None;
  }

  lemma FirstSet(fields: map<string, Json>, k: string, x: string, f1: Effect, r: Ref<Json>)
    requires k in fields && f1.op == Replace && f1.base == [] && f1.token == k && r == Live([k])
    ensures var d3 := Obj(fields[k := One(x, Null)]); Patched(Obj(fields), f1, Now(d3, r)) == Some(d3)
  {
    RootMember(fields[k := One(x, Null)], k);
    StalePaths.ApplyAnywhere(Obj(fields), Replace, [], k, One(x, Null));
  }

  lemma NothingInNull(fields: map<string, Json>, k: string, x: string, y: string, f2: Effect, v: Json)
    requires f2.op == Replace && f2.base == [k, x] && f2.token == y
    ensures Patched(Obj(fields[k := One(x, Null)]), f2, v) == None
  {
    InnerMember(fields, k, x, Null);
    StalePaths.ApplyAnywhere(Obj(fields[k := One(x, Null)]), Replace, [k, x], y, v);
  }
}
