/** Observable states (rekuest_next/state/observable.py): `make_evented`, the evented containers with the path and the
    port each of them stores, and when a stored path is the place where the container is. */
module ObservedState {
  import opened Prelude
  import opened JsonPointer
  import opened JsonPatch
  import Ports

  type Port = Ports.Port

  // ---------------------------------------------------------------- ports of children

  datatype Key = Name(name: string) | Index(i: int)

  /** The first port with the key. */
  function FindPort(ps: seq<Port>, key: string): Option<Port> {
    if ps == [] then None else if ps[0].key == key then Some(ps[0]) else FindPort(ps[1..], key)
  }

  /** `_resolve_child_port`: without a parent port a name is looked up among the ports of the whole state. */
  function ChildPort(top: seq<Port>, parent: Option<Port>, key: Key): Option<Port> {
    match key
    case Index(_) => if parent.Some? && parent.value.children != [] then Some(parent.value.children[0]) else None
    case Name(k) => FindPort(if parent.None? then top else parent.value.children, k)
  }

  // ---------------------------------------------------------------- evented values

  /** A value that is no container. A `Thing` shrinks to `v` through the ports of its kind and identifier: a date, a
      float, a quantity, an enum, or what the structure registry shrinks or the agent shelves. */
  datatype Scalar =
    | NoneV | BoolV(b: bool) | IntV(n: int) | StrV(s: string)
    | Thing(kind: Ports.Kind, identifier: Option<string>, v: Json)

  /** A value as the state holds it. A dictionary, list or dataclass stores the path and the port it was wrapped with;
      a dataclass that is `evented` keeps its own when it is wrapped once more. */
  datatype Node =
    | Leaf(v: Scalar)
    | Dict(path: string, port: Option<Port>, fields: map<string, Node>)
    | List(path: string, port: Option<Port>, items: seq<Node>)
    | Data(cls: string, evented: bool, path: string, port: Option<Port>, fields: map<string, Node>)

  function WithFields(c: Node, fields: map<string, Node>): Node
    requires c.Dict? || c.Data?
  {
    if c.Dict? then Dict(c.path, c.port, fields) else Data(c.cls, c.evented, c.path, c.port, fields)
  }

  function WithItems(c: Node, items: seq<Node>): Node
    requires c.List?
  {
    List(c.path, c.port, items)
  }

  function ItemPath(base: string, i: int): string {
    base + "/" + IntToken(i)
  }

  /** `make_evented`. */
  function Wrap(top: seq<Port>, n: Node, path: string, port: Option<Port>): Node
    decreases n, 1
  {
    match n
    case Leaf(_) => n
    case Dict(_, _, _) => Dict(path, port, WrapFields(top, n, path, port))
    case List(_, _, items) =>
      List(path, port, seq(|items|, i requires 0 <= i < |items| =>
        Wrap(top, items[i], ItemPath(path, i), ChildPort(top, port, Index(i)))))
    case Data(cls, evented, ownPath, ownPort, _) =>
      var wrapped := WrapFields(top, n, path, port);
      if evented then Data(cls, true, ownPath, ownPort, wrapped) else Data(cls, true, path, port, wrapped)
  }

  function WrapFields(top: seq<Port>, n: Node, path: string, port: Option<Port>): map<string, Node>
    requires n.Dict? || n.Data?
    decreases n, 0
  {
    map k | k in n.fields :: Wrap(top, n.fields[k], MakePath(path, k), ChildPort(top, port, Name(k)))
  }

  /** `_reindex_items` on one item: only its own path. */
  function Repath(n: Node, path: string): Node {
    match n
    case Leaf(_) => n
    case Dict(_, port, fields) => Dict(path, port, fields)
    case List(_, port, items) => List(path, port, items)
    case Data(cls, evented, ownPath, port, fields) =>
      Data(cls, evented, if evented then path else ownPath, port, fields)
  }

  function Reindexed(items: seq<Node>, base: string, start: nat): seq<Node> {
    seq(|items|, j requires 0 <= j < |items| => if j < start then items[j] else Repath(items[j], ItemPath(base, j)))
  }

  // ---------------------------------------------------------------- mutations

  datatype Change =
    | SetKey(key: string, n: Node) | DeleteKey(key: string) | SetAttr(key: string, n: Node)
    | SetItem(i: int, n: Node) | DeleteItem(i: int) | Pop(i: int) | Append(n: Node) | Insert(i: int, n: Node)

  predicate TakesValue(ch: Change) {
    !ch.DeleteKey? && !ch.DeleteItem? && !ch.Pop?
  }

  /** The change with the value `v` in it, if it takes one. */
  function AsMutation(ch: Change, v: Json): Mutation {
    match ch
    case SetKey(k, _) => Mutation.SetKey(k, v)
    case DeleteKey(k) => Mutation.DeleteKey(k)
    case SetAttr(k, _) => Mutation.SetAttr(k, v)
    case SetItem(i, _) => Mutation.SetItem(i, v)
    case DeleteItem(i) => Mutation.DeleteItem(i)
    case Pop(i) => Mutation.Pop(i)
    case Append(_) => Mutation.Append(v)
    case Insert(i, _) => Mutation.Insert(i, v)
  }

  /** A container without what it holds. */
  function Frame(c: Node): Json {
    match c
    case Leaf(_) => Null
    case List(_, _, items) => Arr(seq(|items|, i => Null))
    case _ => Obj(map k | k in c.fields :: Null)
  }

  /** The container has this operation; names that begin with an underscore are not observed. */
  predicate Offers(c: Node, ch: Change) {
    match ch
    case SetKey(_, _) => c.Dict?
    case DeleteKey(_) => c.Dict?
    case SetAttr(k, _) => c.Data? && !("_" <= k)
    case _ => c.List?
  }

  /** And it does not raise. */
  predicate Applies(c: Node, ch: Change) {
    Offers(c, ch) && Mutated(Frame(c), AsMutation(ch, Null)).Some?
  }

  /** The key that the port of a published value is looked up with. */
  function KeyOf(c: Node, ch: Change): Key
    requires Applies(c, ch)
  {
    match ch
    case SetKey(k, _) => Name(k)
    case DeleteKey(k) => Name(k)
    case SetAttr(k, _) => Name(k)
    case SetItem(i, _) => Index(i)
    case DeleteItem(i) => Index(i)
    case Pop(i) => Index(Normal(i, |c.items|))
    case Append(_) => Index(|c.items|)
    case Insert(i, _) => Index(Clamp(i, |c.items|))
  }

  /** The items after a deletion. Reindexing from a negative index covers them all, but raises before it begins if the
      first one was deleted. */
  function Without1(c: Node, i: int): seq<Node>
    requires c.List? && 0 <= Normal(i, |c.items|) < |c.items|
  {
    var j := Normal(i, |c.items|);
    Reindexed(c.items[..j] + c.items[j + 1..], c.path, if i >= 0 then i else if j == 0 then |c.items| else 0)
  }

  /** The items after an insertion. */
  function Inserted(c: Node, j: nat, w: Node): seq<Node>
    requires c.List? && j <= |c.items|
  {
    Reindexed(c.items[..j] + [w] + c.items[j..], c.path, j + 1)
  }

  /** No item is set or deleted by a negative index, nor popped by one that counts past the front. */
  predicate NotNegative(c: Node, ch: Change) {
    match ch
    case SetItem(i, _) => i >= 0
    case DeleteItem(i) => i >= 0
    case Pop(i) => c.List? && i >= -|c.items|
    case _ => true
  }

  /** The container after the change. */
  function After(top: seq<Port>, c: Node, ch: Change): Node
    requires Applies(c, ch)
  {
    var port := ChildPort(top, c.port, KeyOf(c, ch));
    match ch
    case SetKey(k, n) => WithFields(c, c.fields[k := Wrap(top, n, MakePath(c.path, k), port)])
    case DeleteKey(k) => WithFields(c, Without(c.fields, k))
    case SetAttr(k, n) => WithFields(c, c.fields[k := Wrap(top, n, MakePath(c.path, k), port)])
    case SetItem(i, n) => WithItems(c, c.items[Normal(i, |c.items|) := Wrap(top, n, ItemPath(c.path, i), port)])
    case DeleteItem(i) => WithItems(c, Without1(c, i))
    case Pop(i) => WithItems(c, Without1(c, Normal(i, |c.items|)))
    case Append(n) => WithItems(c, c.items + [Wrap(top, n, ItemPath(c.path, |c.items|), port)])
    case Insert(i, n) =>
      WithItems(c, Inserted(c, Clamp(i, |c.items|), Wrap(top, n, ItemPath(c.path, Clamp(i, |c.items|)), port)))
  }

  /** An item of a list that is at `j` now: the same as before, or with the path of its new place. */
  predicate SameItem(base: string, before: Node, after: Node, j: nat) {
    after == before || after == Repath(before, ItemPath(base, j))
  }

  /** The other items keep their order around the item number `n` that went. */
  ghost predicate Closed(base: string, before: seq<Node>, n: nat, after: seq<Node>) {
    && |after| + 1 == |before| && n < |before|
    && (forall j :: 0 <= j < n ==> SameItem(base, before[j], after[j], j))
    && (forall j :: n <= j < |after| ==> SameItem(base, before[j + 1], after[j], j))
  }

  /** And around the item number `n` that came. */
  ghost predicate Opened(base: string, before: seq<Node>, n: nat, after: seq<Node>) {
    && |after| == |before| + 1 && n < |after|
    && (forall j :: 0 <= j < n ==> SameItem(base, before[j], after[j], j))
    && (forall j :: n < j < |after| ==> SameItem(base, before[j - 1], after[j], j))
  }

  /** What Python's indices mean for the items of an observed list: a negative one counts from the end. */
  lemma ItemsAfter(top: seq<Port>, c: Node, ch: Change)
    requires Applies(c, ch) && c.List?
    ensures After(top, c, ch).List? && After(top, c, ch).path == c.path && After(top, c, ch).port == c.port
    ensures var n, after := |c.items|, After(top, c, ch).items;
      match ch
      case Pop(i) =>
        -2 * n <= i < n && Closed(c.path, c.items, if i < -n then 2 * n + i else if i < 0 then n + i else i, after)
      case DeleteItem(i) => -n <= i < n && Closed(c.path, c.items, if i < 0 then n + i else i, after)
      case SetItem(i, _) =>
        && -n <= i < n && |after| == n
        && forall j :: 0 <= j < n && j != (if i < 0 then n + i else i) ==> after[j] == c.items[j]
      case Append(_) => |after| == n + 1 && after[..n] == c.items
      case Insert(i, _) =>
        Opened(c.path, c.items, if i >= n then n else if i >= 0 then i else if i >= -n then n + i else 0, after)
      case _ => true
  {
    match ch
    case Pop(i) => ItemsClosed(c, Normal(i, |c.items|));
    case DeleteItem(i) => ItemsClosed(c, i);
    case Insert(i, _) => ItemsOpened(c, Clamp(i, |c.items|), After(top, c, ch).items[Clamp(i, |c.items|)]);
    case _ =>
  }

  lemma ItemsClosed(c: Node, i: int)
    requires c.List? && 0 <= Normal(i, |c.items|) < |c.items|
    ensures Closed(c.path, c.items, Normal(i, |c.items|), Without1(c, i))
  {
  }

  lemma ItemsOpened(c: Node, n: nat, w: Node)
    requires c.List? && n <= |c.items|
    ensures Opened(c.path, c.items, n, Inserted(c, n, w))
  {
  }

  /** Every item from `start` on stores the path of its place; those before are as they were. */
  ghost predicate RepathedFrom(base: string, left: seq<Node>, start: int, after: seq<Node>) {
    && |after| == |left|
    && (forall j :: 0 <= j < |left| && j < start ==> after[j] == left[j])
    && (forall j :: 0 <= j < |left| && j >= start ==> after[j] == Repath(left[j], ItemPath(base, j)))
  }

  /** Which stored paths a deletion renews: those of the items after the one that went; or, if it was counted from the
      end by a deletion or past the front by a pop, those of all items, and none at all if it was the first. */
  lemma PathsAfterRemoval(top: seq<Port>, c: Node, ch: Change, n: int)
    requires Applies(c, ch) && (ch.Pop? || ch.DeleteItem?)
    requires n == (if ch.i >= 0 then ch.i else if ch.i >= -|c.items| then |c.items| + ch.i else 2 * |c.items| + ch.i)
    ensures 0 <= n < |c.items|
    ensures var left, after := c.items[..n] + c.items[n + 1..], After(top, c, ch).items;
      if NotNegative(c, ch) then RepathedFrom(c.path, left, n, after)
      else if n > 0 then RepathedFrom(c.path, left, 0, after)
      else after == left
  {
    RemovalRepaths(c, if ch.Pop? then Normal(ch.i, |c.items|) else ch.i, n);
  }

  lemma RemovalRepaths(c: Node, i: int, n: int)
    requires c.List? && 0 <= n < |c.items| && (n == i || (i < 0 && n == |c.items| + i))
    ensures var left := c.items[..n] + c.items[n + 1..];
      if i >= 0 then RepathedFrom(c.path, left, n, Without1(c, i))
      else if n > 0 then RepathedFrom(c.path, left, 0, Without1(c, i))
      else Without1(c, i) == left
  {
  }

  /** An insertion renews the stored paths of the items it shifts, and of no others. */
  lemma PathsAfterInsertion(top: seq<Port>, c: Node, i: int, v: Node)
    requires Applies(c, Change.Insert(i, v))
    ensures var n, after := Clamp(i, |c.items|), After(top, c, Change.Insert(i, v)).items;
      |after| == |c.items| + 1 && RepathedFrom(c.path, c.items[..n] + [after[n]] + c.items[n..], n + 1, after)
  {
  }

  /** Which changes a container takes: keys on dictionaries, where a key to delete must be there; names without a
      leading underscore on dataclasses; and on lists the indices that Python takes, `pop` those twice as far from the
      end. */
  lemma AppliesIff(c: Node, ch: Change)
    ensures Applies(c, ch) <==>
      match ch
      case SetKey(_, _) => c.Dict?
      case DeleteKey(k) => c.Dict? && k in c.fields
      case SetAttr(k, _) => c.Data? && (k == "" || k[0] != '_')
      case SetItem(i, _) => c.List? && -|c.items| <= i < |c.items|
      case DeleteItem(i) => c.List? && -|c.items| <= i < |c.items|
      case Pop(i) => c.List? && -2 * |c.items| <= i < |c.items|
      case Append(_) => c.List?
      case Insert(_, _) => c.List?
  {
    match ch
    case SetAttr(k, _) => assert "_" <= k <==> k != "" && k[0] == '_';
    case _ =>
  }

  // ---------------------------------------------------------------- stored paths and locations

  /** Every container in `n`, which is at `loc`, is evented and stores the path of the place where it is. */
  ghost predicate AllPlaced(n: Node, loc: seq<string>)
    decreases n
  {
    match n
    case Leaf(_) => true
    case Dict(path, _, fields) =>
      Parse(path) == Some(loc) && forall k :: k in fields ==> AllPlaced(fields[k], loc + [k])
    case Data(_, evented, path, _, fields) =>
      evented && Parse(path) == Some(loc) && forall k :: k in fields ==> AllPlaced(fields[k], loc + [k])
    case List(path, _, items) =>
      Parse(path) == Some(loc) && forall i :: 0 <= i < |items| ==> AllPlaced(items[i], loc + [IndexToken(i)])
  }

  /** Every dataclass in `n` that is evented already stores the path of the place it comes to when `n` is put at `loc`:
      wrapping it once more would not repair it. */
  ghost predicate Fits(n: Node, loc: seq<string>)
    decreases n
  {
    match n
    case Leaf(_) => true
    case Dict(_, _, fields) => forall k :: k in fields ==> Fits(fields[k], loc + [k])
    case Data(_, evented, path, _, fields) =>
      (evented ==> Parse(path) == Some(loc)) && forall k :: k in fields ==> Fits(fields[k], loc + [k])
    case List(_, _, items) => forall i :: 0 <= i < |items| ==> Fits(items[i], loc + [IndexToken(i)])
  }

  lemma ItemPathParses(base: string, loc: seq<string>, i: nat)
    requires Parse(base) == Some(loc)
    ensures Parse(ItemPath(base, i)) == Some(loc + [IndexToken(i)])
  {
    IndexPathParses(base, i);
  }

  lemma FieldPathParses(base: string, loc: seq<string>, k: string)
    requires Parse(base) == Some(loc)
    ensures Parse(MakePath(base, k)) == Some(loc + [k])
  {
    MakePathParses(base, k);
  }

  /** A value wrapped at a path has all its containers in place exactly if none of them is a dataclass that was evented
      before, somewhere else. */
  lemma {:induction false} WrapPlacesIff(top: seq<Port>, n: Node, path: string, port: Option<Port>, loc: seq<string>)
    requires Parse(path) == Some(loc)
    ensures AllPlaced(Wrap(top, n, path, port), loc) <==> Fits(n, loc)
    decreases n, 1
  {
    match n
    case Leaf(_) =>
    case List(_, _, items) =>
      forall i | 0 <= i < |items|
        ensures AllPlaced(Wrap(top, n, path, port).items[i], loc + [IndexToken(i)]) <==>
                Fits(items[i], loc + [IndexToken(i)])
      {
        ItemPathParses(path, loc, i);
        WrapPlacesIff(top, items[i], ItemPath(path, i), ChildPort(top, port, Index(i)), loc + [IndexToken(i)]);
      }
    case Dict(_, _, _) => FieldsPlacedIff(top, n, path, port, loc);
    case Data(_, _, _, _, _) => FieldsPlacedIff(top, n, path, port, loc);
  }

  lemma {:induction false} FieldsPlacedIff(top: seq<Port>, n: Node, path: string, port: Option<Port>, loc: seq<string>)
    requires Parse(path) == Some(loc) && (n.Dict? || n.Data?)
    ensures forall k :: k in n.fields ==>
              (AllPlaced(WrapFields(top, n, path, port)[k], loc + [k]) <==> Fits(n.fields[k], loc + [k]))
    decreases n, 0
  {
    forall k | k in n.fields
      ensures AllPlaced(WrapFields(top, n, path, port)[k], loc + [k]) <==> Fits(n.fields[k], loc + [k])
    {
      FieldPathParses(path, loc, k);
      WrapPlacesIff(top, n.fields[k], MakePath(path, k), ChildPort(top, port, Name(k)), loc + [k]);
    }
  }

  /** No container directly inside. */
  ghost predicate Shallow(n: Node) {
    match n
    case Leaf(_) => true
    case List(_, _, items) => forall i :: 0 <= i < |items| ==> items[i].Leaf?
    case _ => forall k :: k in n.fields ==> n.fields[k].Leaf?
  }

  /** An item that is shifted, and whose own path is repaired, is still in place with all it holds exactly if it holds
      no further container. */
  lemma ShiftedPlacedIff(n: Node, base: string, loc: seq<string>, i: nat, j: nat)
    requires Parse(base) == Some(loc) && i != j && AllPlaced(n, loc + [IndexToken(i)])
    ensures AllPlaced(Repath(n, ItemPath(base, j)), loc + [IndexToken(j)]) <==> Shallow(n)
  {
    ItemPathParses(base, loc, j);
    IndexRoundTrip(i);
    IndexRoundTrip(j);
    var from, to := loc + [IndexToken(i)], loc + [IndexToken(j)];
    assert from[|loc|] == IndexToken(i) && to[|loc|] == IndexToken(j);
    match n
    case Leaf(_) =>
    case List(_, _, items) =>
      forall k | 0 <= k < |items| ensures AllPlaced(items[k], to + [IndexToken(k)]) <==> items[k].Leaf? {
        ElsewhereMisplaced(items[k], from, to, IndexToken(k));
      }
    case _ =>
      forall k | k in n.fields ensures AllPlaced(n.fields[k], to + [k]) <==> n.fields[k].Leaf? {
        ElsewhereMisplaced(n.fields[k], from, to, k);
      }
  }

  lemma ElsewhereMisplaced(n: Node, from: seq<string>, to: seq<string>, t: string)
    requires from != to && AllPlaced(n, from + [t])
    ensures AllPlaced(n, to + [t]) <==> n.Leaf?
  {
    assert (from + [t])[..|from|] == from && (to + [t])[..|to|] == to;
  }

  /** What a change must meet to leave the container and all it holds in place: a new value has no dataclass evented
      elsewhere, and no item that is shifted holds a further container. */
  ghost predicate KeepsPlaces(c: Node, ch: Change, loc: seq<string>)
    requires Applies(c, ch)
  {
    match ch
    case SetKey(k, n) => Fits(n, loc + [k])
    case SetAttr(k, n) => Fits(n, loc + [k])
    case DeleteKey(_) => true
    case SetItem(i, n) => Fits(n, loc + [IndexToken(Normal(i, |c.items|))])
    case Append(n) => Fits(n, loc + [IndexToken(|c.items|)])
    case Insert(i, n) => Fits(n, loc + [IndexToken(Clamp(i, |c.items|))]) && ShallowFrom(c, Clamp(i, |c.items|))
    case DeleteItem(i) => ShallowFrom(c, Normal(i, |c.items|) + 1)
    case Pop(i) => ShallowFrom(c, Normal(Normal(i, |c.items|), |c.items|) + 1)
  }

  ghost predicate ShallowFrom(c: Node, start: nat)
    requires c.List?
  {
    forall i :: start <= i < |c.items| ==> Shallow(c.items[i])
  }

  lemma FieldSetPlaces(top: seq<Port>, c: Node, k: string, n: Node, port: Option<Port>, loc: seq<string>)
    requires (c.Dict? || c.Data?) && AllPlaced(c, loc)
    ensures AllPlaced(WithFields(c, c.fields[k := Wrap(top, n, MakePath(c.path, k), port)]), loc) <==>
            Fits(n, loc + [k])
  {
    FieldPathParses(c.path, loc, k);
    WrapPlacesIff(top, n, MakePath(c.path, k), port, loc + [k]);
    var fields := c.fields[k := Wrap(top, n, MakePath(c.path, k), port)];
    assert fields[k] == Wrap(top, n, MakePath(c.path, k), port);
  }

  lemma ItemSetPlaces(top: seq<Port>, c: Node, i: nat, n: Node, port: Option<Port>, loc: seq<string>)
    requires c.List? && i < |c.items| && AllPlaced(c, loc)
    ensures AllPlaced(WithItems(c, c.items[i := Wrap(top, n, ItemPath(c.path, i), port)]), loc) <==>
            Fits(n, loc + [IndexToken(i)])
  {
    ItemPathParses(c.path, loc, i);
    WrapPlacesIff(top, n, ItemPath(c.path, i), port, loc + [IndexToken(i)]);
    var items := c.items[i := Wrap(top, n, ItemPath(c.path, i), port)];
    assert items[i] == Wrap(top, n, ItemPath(c.path, i), port);
  }

  lemma AppendPlaces(top: seq<Port>, c: Node, n: Node, port: Option<Port>, loc: seq<string>)
    requires c.List? && AllPlaced(c, loc)
    ensures AllPlaced(WithItems(c, c.items + [Wrap(top, n, ItemPath(c.path, |c.items|), port)]), loc) <==>
            Fits(n, loc + [IndexToken(|c.items|)])
  {
    ItemPathParses(c.path, loc, |c.items|);
    WrapPlacesIff(top, n, ItemPath(c.path, |c.items|), port, loc + [IndexToken(|c.items|)]);
    var items := c.items + [Wrap(top, n, ItemPath(c.path, |c.items|), port)];
    assert items[|c.items|] == Wrap(top, n, ItemPath(c.path, |c.items|), port);
  }

  lemma ItemsInserted(c: Node, j: nat, w: Node, i: nat)
    requires c.List? && j <= |c.items| && i <= |c.items|
    ensures |Inserted(c, j, w)| == |c.items| + 1
    ensures Inserted(c, j, w)[i] ==
      if i < j then c.items[i] else if i == j then w else Repath(c.items[i - 1], ItemPath(c.path, i))
  {
  }

  lemma ItemInsertedPlaced(c: Node, j: nat, w: Node, i: nat, loc: seq<string>)
    requires c.List? && j <= |c.items| && i <= |c.items| && AllPlaced(c, loc)
    ensures |Inserted(c, j, w)| == |c.items| + 1
    ensures AllPlaced(Inserted(c, j, w)[i], loc + [IndexToken(i)]) <==>
            i < j || (i == j && AllPlaced(w, loc + [IndexToken(j)])) || (i > j && Shallow(c.items[i - 1]))
  {
    ItemsInserted(c, j, w, i);
    if i < j {
      assert AllPlaced(c.items[i], loc + [IndexToken(i)]);
    } else if i > j {
      ShiftedPlacedIff(c.items[i - 1], c.path, loc, i - 1, i);
    }
  }

  lemma InsertPlaces(top: seq<Port>, c: Node, j: nat, n: Node, port: Option<Port>, loc: seq<string>)
    requires c.List? && j <= |c.items| && AllPlaced(c, loc)
    ensures AllPlaced(WithItems(c, Inserted(c, j, Wrap(top, n, ItemPath(c.path, j), port))), loc) <==>
            Fits(n, loc + [IndexToken(j)]) && ShallowFrom(c, j)
  {
    var w := Wrap(top, n, ItemPath(c.path, j), port);
    ItemPathParses(c.path, loc, j);
    WrapPlacesIff(top, n, ItemPath(c.path, j), port, loc + [IndexToken(j)]);
    forall i | 0 <= i <= |c.items|
      ensures |Inserted(c, j, w)| == |c.items| + 1
      ensures AllPlaced(Inserted(c, j, w)[i], loc + [IndexToken(i)]) <==>
              i < j || (i == j && AllPlaced(w, loc + [IndexToken(j)])) || (i > j && Shallow(c.items[i - 1]))
    {
      ItemInsertedPlaced(c, j, w, i, loc);
    }
    InsertedIff(c, j, w, loc);
  }

  lemma InsertedIff(c: Node, j: nat, w: Node, loc: seq<string>)
    requires c.List? && j <= |c.items| && AllPlaced(c, loc) && |Inserted(c, j, w)| == |c.items| + 1
    requires forall i :: 0 <= i <= |c.items| ==>
               (AllPlaced(Inserted(c, j, w)[i], loc + [IndexToken(i)]) <==>
                i < j || (i == j && AllPlaced(w, loc + [IndexToken(j)])) || (i > j && Shallow(c.items[i - 1])))
    ensures AllPlaced(WithItems(c, Inserted(c, j, w)), loc) <==>
            AllPlaced(w, loc + [IndexToken(j)]) && ShallowFrom(c, j)
  {
    if AllPlaced(WithItems(c, Inserted(c, j, w)), loc) {
      assert AllPlaced(Inserted(c, j, w)[j], loc + [IndexToken(j)]);
      forall i | j <= i < |c.items| ensures Shallow(c.items[i]) {
        assert AllPlaced(Inserted(c, j, w)[i + 1], loc + [IndexToken(i + 1)]);
      }
    }
  }

  lemma ItemsLeft(c: Node, j: nat, i: nat)
    requires c.List? && j < |c.items| && i < |c.items| - 1
    ensures |Without1(c, j)| == |c.items| - 1
    ensures Without1(c, j)[i] == if i < j then c.items[i] else Repath(c.items[i + 1], ItemPath(c.path, i))
  {
  }

  lemma ItemLeftPlaced(c: Node, j: nat, i: nat, loc: seq<string>)
    requires c.List? && j < |c.items| && i < |c.items| - 1 && AllPlaced(c, loc)
    ensures |Without1(c, j)| == |c.items| - 1
    ensures AllPlaced(Without1(c, j)[i], loc + [IndexToken(i)]) <==> i < j || Shallow(c.items[i + 1])
  {
    ItemsLeft(c, j, i);
    if i < j {
      assert AllPlaced(c.items[i], loc + [IndexToken(i)]);
    } else {
      ShiftedPlacedIff(c.items[i + 1], c.path, loc, i + 1, i);
    }
  }

  lemma DeletePlaces(c: Node, j: nat, loc: seq<string>)
    requires c.List? && j < |c.items| && AllPlaced(c, loc)
    ensures AllPlaced(WithItems(c, Without1(c, j)), loc) <==> ShallowFrom(c, j + 1)
  {
    var n := |c.items| - 1;
    forall i | 0 <= i < n
      ensures |Without1(c, j)| == n
      ensures AllPlaced(Without1(c, j)[i], loc + [IndexToken(i)]) <==> i < j || Shallow(c.items[i + 1])
    {
      ItemLeftPlaced(c, j, i, loc);
    }
    assert |Without1(c, j)| == n;
    if AllPlaced(WithItems(c, Without1(c, j)), loc) {
      forall i | j + 1 <= i < |c.items| ensures Shallow(c.items[i]) {
        assert AllPlaced(Without1(c, j)[i - 1], loc + [IndexToken(i - 1)]);
      }
    }
  }

  /** Stored paths are where the containers are after a change, exactly if the change keeps places: a new value brings
      no dataclass evented elsewhere, and no shifted item holds a further container. */
  lemma AfterPlacedIff(top: seq<Port>, c: Node, ch: Change, loc: seq<string>)
    requires Applies(c, ch) && AllPlaced(c, loc) && NotNegative(c, ch)
    ensures AllPlaced(After(top, c, ch), loc) <==> KeepsPlaces(c, ch, loc)
  {
    var port := ChildPort(top, c.port, KeyOf(c, ch));
    match ch
    case SetKey(k, n) => FieldSetPlaces(top, c, k, n, port, loc);
    case SetAttr(k, n) => FieldSetPlaces(top, c, k, n, port, loc);
    case DeleteKey(_) =>
    case SetItem(i, n) => ItemSetPlaces(top, c, i, n, port, loc);
    case Append(n) => AppendPlaces(top, c, n, port, loc);
    case Insert(i, n) => InsertPlaces(top, c, Clamp(i, |c.items|), n, port, loc);
    case DeleteItem(i) => DeletePlaces(c, i, loc);
    case Pop(i) => DeletePlaces(c, Normal(i, |c.items|), loc);
  }

  // ---------------------------------------------------------------- a container inside the state

  function NodeAt(n: Node, p: seq<string>): Option<Node>
    decreases p
  {
    if p == [] then Some(n)
    else
      match NodeChild(n, p[0])
      case Some(child) => NodeAt(child, p[1..])
      case None => None
  }

  function NodeChild(n: Node, t: string): Option<Node> {
    match n
    case Leaf(_) => None
    case List(_, _, items) =>
      (match ParseIndex(t) case Some(i) => if i < |items| then Some(items[i]) else None case None => None)
    case _ => if t in n.fields then Some(n.fields[t]) else None
  }

  function WithNode(n: Node, t: string, child: Node): Node
    requires NodeChild(n, t).Some?
  {
    match n
    case List(_, _, items) => WithItems(n, items[ParseIndex(t).value := child])
    case Dict(_, _, fields) => WithFields(n, fields[t := child])
    case Data(_, _, _, _, fields) => WithFields(n, fields[t := child])
  }

  function PutNode(n: Node, p: seq<string>, c: Node): Node
    requires NodeAt(n, p).Some?
    decreases p
  {
    if p == [] then c else WithNode(n, p[0], PutNode(NodeChild(n, p[0]).value, p[1..], c))
  }

  lemma ChildPlaced(n: Node, t: string, loc: seq<string>)
    requires NodeChild(n, t).Some? && AllPlaced(n, loc)
    ensures AllPlaced(NodeChild(n, t).value, loc + [t])
  {
    if n.List? {
      ParsedIndexIsToken(t);
    }
  }

  lemma WithPlacedIff(n: Node, t: string, child: Node, loc: seq<string>)
    requires NodeChild(n, t).Some? && AllPlaced(n, loc)
    ensures AllPlaced(WithNode(n, t, child), loc) <==> AllPlaced(child, loc + [t])
  {
    if n.List? {
      ParsedIndexIsToken(t);
      var i, items := ParseIndex(t).value, n.items[ParseIndex(t).value := child];
      assert items[i] == child;
      assert AllPlaced(WithNode(n, t, child), loc) ==> AllPlaced(items[i], loc + [IndexToken(i)]);
    } else {
      var fields := n.fields[t := child];
      assert fields[t] == child;
      assert AllPlaced(WithNode(n, t, child), loc) ==> AllPlaced(fields[t], loc + [t]);
    }
  }

  lemma {:induction false} PlaceAt(n: Node, p: seq<string>, loc: seq<string>)
    requires NodeAt(n, p).Some? && AllPlaced(n, loc)
    ensures AllPlaced(NodeAt(n, p).value, loc + p)
    decreases p
  {
    if p == [] {
      assert loc + p == loc;
    } else {
      ChildPlaced(n, p[0], loc);
      PlaceAt(NodeChild(n, p[0]).value, p[1..], loc + [p[0]]);
      assert loc + [p[0]] + p[1..] == loc + p;
    }
  }

  /** A state in place stays so when a container in it is replaced, exactly if the new one is in place there. */
  lemma {:induction false} PutPlacedIff(n: Node, p: seq<string>, c: Node, loc: seq<string>)
    requires NodeAt(n, p).Some? && AllPlaced(n, loc)
    ensures AllPlaced(PutNode(n, p, c), loc) <==> AllPlaced(c, loc + p)
    decreases p
  {
    if p == [] {
      assert loc + p == loc;
    } else {
      var child := NodeChild(n, p[0]).value;
      ChildPlaced(n, p[0], loc);
      PutPlacedIff(child, p[1..], c, loc + [p[0]]);
      WithPlacedIff(n, p[0], PutNode(child, p[1..], c), loc);
      assert loc + [p[0]] + p[1..] == loc + p;
    }
  }

  /** No dataclass in it was evented before. */
  ghost predicate Unevented(n: Node)
    decreases n
  {
    match n
    case Leaf(_) => true
    case Dict(_, _, fields) => forall k :: k in fields ==> Unevented(fields[k])
    case Data(_, evented, _, _, fields) => !evented && forall k :: k in fields ==> Unevented(fields[k])
    case List(_, _, items) => forall i :: 0 <= i < |items| ==> Unevented(items[i])
  }

  lemma {:induction false} UneventedFits(n: Node, loc: seq<string>)
    requires Unevented(n)
    ensures Fits(n, loc)
    decreases n
  {
    match n
    case Leaf(_) =>
    case List(_, _, items) =>
      forall i | 0 <= i < |items| ensures Fits(items[i], loc + [IndexToken(i)]) {
        UneventedFits(items[i], loc + [IndexToken(i)]);
      }
    case _ =>
      forall k | k in n.fields ensures Fits(n.fields[k], loc + [k]) {
        UneventedFits(n.fields[k], loc + [k]);
      }
  }

  /** A state that is wrapped when the agent starts is in place. */
  lemma StartsPlaced(top: seq<Port>, n: Node)
    requires Unevented(n)
    ensures AllPlaced(Wrap(top, n, "", None), [])
  {
    UneventedFits(n, []);
    WrapPlacesIff(top, n, "", None, []);
  }

  // ---------------------------------------------------------------- which ports there are

  lemma {:induction false} FindPortIff(ps: seq<Port>, key: string)
    ensures FindPort(ps, key).Some? <==> exists i :: 0 <= i < |ps| && ps[i].key == key
  {
    if ps != [] {
      FindPortIff(ps[1..], key);
      if i :| 0 <= i < |ps| && ps[i].key == key {
        assert i == 0 || ps[1..][i - 1].key == key;
      }
      if j :| 0 <= j < |ps[1..]| && ps[1..][j].key == key {
        assert ps[j + 1].key == key;
      }
    }
  }

  /** What a type has ports for below it: a name, or an item. */
  predicate HasName(t: Ports.Type, name: string) {
    match t
    case AnnotatedT(inner, _, _) => HasName(inner, name)
    case UnionT(vs, optional) =>
      if optional && |vs| == 1 then HasName(vs[0], name)
      else (match ParseIndex(name) case Some(i) => i < |vs| case None => false)
    case ModelT(_, fields) => name in Ports.Names(fields)
    case ListT(_) => name == "..."
    case DictT(_) => name == "..."
    case _ => false
  }

  predicate HasItem(t: Ports.Type) {
    match t
    case AnnotatedT(inner, _, _) => HasItem(inner)
    case UnionT(vs, optional) => if optional && |vs| == 1 then HasItem(vs[0]) else true
    case ModelT(_, fields) => fields != []
    case ListT(_) => true
    case DictT(_) => true
    case _ => false
  }

  /** The same keys among the children of the argument and the return port. */
  lemma SameChildKeys(p: Port, q: Port)
    requires Ports.BuildPortMatch(0, p) == Ports.BuildPortMatch(0, q)
    ensures |p.children| == |q.children| && forall i :: 0 <= i < |p.children| ==> p.children[i].key == q.children[i].key
  {
    var ms, ns := Ports.BuildPortMatches(p.children), Ports.BuildPortMatches(q.children);
    assert ms == ns && |ms| == |p.children| && |ns| == |q.children|;
    forall i | 0 <= i < |p.children| ensures p.children[i].key == q.children[i].key {
      assert ms[i] == Ports.BuildPortMatch(i, p.children[i]) && ns[i] == Ports.BuildPortMatch(i, q.children[i]);
    }
  }

  lemma {:induction false} ArgChildKeys(reg: Ports.Registry, t: Ports.Type, key: string, d: Ports.Default,
                                        nullable: bool, needs: seq<string>, name: string)
    requires Ports.ToArg(reg, t, key, d, nullable, needs).Some?
    ensures var ps := Ports.ToArg(reg, t, key, d, nullable, needs).value.children;
      && (ps != [] <==> HasItem(t))
      && ((exists i :: 0 <= i < |ps| && ps[i].key == name) <==> HasName(t, name))
    decreases t
  {
    match t
    case AnnotatedT(inner, default, more) =>
      ArgChildKeys(reg, inner, key, Ports.Merged(default, d), nullable, needs + more, name);
    case UnionT(vs, optional) =>
      if optional && |vs| == 1 {
        ArgChildKeys(reg, vs[0], key, d, true, [], name);
      } else {
        VariantKeys(reg, vs, name);
      }
    case ModelT(_, fields) => FieldKeys(reg, fields, name);
    case ListT(item) => SingleKey(reg, item, name);
    case DictT(item) => SingleKey(reg, item, name);
    case _ =>
  }

  lemma SingleKey(reg: Ports.Registry, item: Ports.Type, name: string)
    requires Ports.ToArg(reg, item, "...", Ports.NoDefault, false, []).Some?
    ensures var ps := [Ports.ToArg(reg, item, "...", Ports.NoDefault, false, []).value];
      (exists i :: 0 <= i < |ps| && ps[i].key == name) <==> name == "..."
  {
    Ports.KeyKept(reg, item, "...", Ports.NoDefault, false, []);
    var ps := [Ports.ToArg(reg, item, "...", Ports.NoDefault, false, []).value];
    assert ps[0].key == "...";
  }

  lemma FieldKeys(reg: Ports.Registry, fields: seq<Ports.Field>, name: string)
    requires Ports.ArgFields(reg, fields).Some?
    ensures var ps := Ports.ArgFields(reg, fields).value;
      && |ps| == |fields|
      && ((exists i :: 0 <= i < |ps| && ps[i].key == name) <==> name in Ports.Names(fields))
  {
    var ps := Ports.ArgFields(reg, fields).value;
    Ports.FieldPorts(reg, fields);
    forall i | 0 <= i < |fields| ensures ps[i].key == Ports.Names(fields)[i] {
      Ports.KeyKept(reg, fields[i].t, fields[i].name, fields[i].default, false, []);
    }
  }

  lemma VariantKeys(reg: Ports.Registry, vs: seq<Ports.Type>, name: string)
    requires Ports.ArgVariants(reg, vs).Some?
    ensures var ps := Ports.ArgVariants(reg, vs).value;
      && |ps| == |vs|
      && ((exists i :: 0 <= i < |ps| && ps[i].key == name) <==>
            ParseIndex(name).Some? && ParseIndex(name).value < |vs|)
  {
    var ps := Ports.ArgVariants(reg, vs).value;
    Ports.VariantPorts(reg, vs);
    forall i | 0 <= i < |vs| ensures ps[i].key == IndexToken(i) && ParseIndex(ps[i].key) == Some(i) {
      Ports.KeyKept(reg, vs[i], IndexToken(i), Ports.NoDefault, false, []);
      IndexRoundTrip(i);
    }
    if ParseIndex(name).Some? && ParseIndex(name).value < |vs| {
      ParsedIndexIsToken(name);
      assert ps[ParseIndex(name).value].key == name;
    }
  }

  /** Which children `_resolve_child_port` finds below the port of a state's type: a field of a model, any item of a
      list; of a dictionary no key but "...". */
  lemma ChildPortIff(reg: Ports.Registry, t: Ports.Type, key: string, d: Ports.Default, nullable: bool,
                     gives: seq<string>, top: seq<Port>, child: Key)
    requires Ports.ToReturn(reg, t, key, d, nullable, gives).Some?
    ensures var port := Ports.ToReturn(reg, t, key, d, nullable, gives);
      ChildPort(top, port, child).Some? <==> if child.Name? then HasName(t, child.name) else HasItem(t)
  {
    var p := Ports.ToReturn(reg, t, key, d, nullable, gives).value;
    Ports.ArgAndReturnAgree(reg, t, key, d, nullable, [], gives);
    var q := Ports.ToArg(reg, t, key, d, nullable, []).value;
    SameChildKeys(q, p);
    var name := if child.Name? then child.name else "";
    ArgChildKeys(reg, t, key, d, nullable, [], name);
    FindPortIff(p.children, name);
    assert forall i :: 0 <= i < |p.children| ==> (p.children[i].key == name <==> q.children[i].key == name);
  }
}
