/** Shrinking (`ashrink_return`, rekuest_next/structures/serialization/actor.py; `ashrink_state`,
    rekuest_next/state/shrink.py): what a value of a state becomes as JSON through its port, and what that says about
    the places and the changes inside it. */
module Shrinking {
  import opened Prelude
  import opened JsonPointer
  import opened JsonPatch
  import opened ObservedState
  import Ports
  import StalePaths

  // ---------------------------------------------------------------- which variant a value is

  /** `predicate_port_input`; `None` is its ValueError for a union inside another. */
  function Verdict(port: Port, n: Node): Option<bool>
    decreases n, port
  {
    match port.kind
    case UNION => None
    case DICT =>
      if !n.Dict? then Some(false)
      else if port.children == [] then None
      else if exists k :: k in n.fields && Verdict(port.children[0], n.fields[k]).None? then None
      else Some(forall k :: k in n.fields ==> Verdict(port.children[0], n.fields[k]) == Some(true))
    case LIST =>
      if !n.List? then Some(false)
      else if port.children == [] then None
      else if exists i :: 0 <= i < |n.items| && Verdict(port.children[0], n.items[i]).None? then None
      else Some(forall i :: 0 <= i < |n.items| ==> Verdict(port.children[0], n.items[i]) == Some(true))
    case MODEL => Some(n.Data? && port.identifier == Some(n.cls))
    case BOOL => Some(n.Leaf? && n.v.BoolV?)
    case INT => Some(n.Leaf? && (n.v.IntV? || n.v.BoolV?))
    case STRING => Some(n.Leaf? && n.v.StrV?)
    case _ => Some(n.Leaf? && n.v.Thing? && n.v.kind == port.kind && n.v.identifier == port.identifier)
  }

  /** The first variant that takes the value, unless an earlier one raises. */
  function Chosen(ports: seq<Port>, n: Node, i: nat): (c: Option<nat>)
    requires i <= |ports|
    ensures c.Some? ==> i <= c.value < |ports|
    decreases |ports| - i
  {
    if i == |ports| || Verdict(ports[i], n).None? then None
    else if Verdict(ports[i], n).value then Some(i)
    else Chosen(ports, n, i + 1)
  }

  // ---------------------------------------------------------------- shrinking

  function Lower(s: string): string {
    seq(|s|, i requires 0 <= i < |s| => if 'A' <= s[i] <= 'Z' then s[i] - 'A' + 'a' else s[i])
  }

  function ShrunkScalar(port: Port, v: Scalar): Option<Json> {
    match v
    case NoneV => if port.nullable then Some(Null) else None
    case BoolV(b) =>
      (match port.kind
       case INT => Some(Num(if b then 1 else 0))
       case FLOAT => Some(Num(if b then 1 else 0))
       case BOOL => Some(Bool(b))
       case _ => None)
    case IntV(n) =>
      (match port.kind
       case INT => Some(Num(n))
       case FLOAT => Some(Num(n))
       case BOOL => if n == 1 || n == 0 then Some(Bool(n == 1)) else None
       case _ => None)
    case StrV(s) =>
      (match port.kind
       case STRING => Some(Str(s))
       case BOOL => if Lower(s) == "true" || Lower(s) == "false" then Some(Bool(Lower(s) == "true")) else None
       case _ => None)
    case Thing(kind, identifier, w) =>
      if kind == port.kind && identifier == port.identifier && !HasChildren(kind) then Some(w) else None
  }

  predicate HasChildren(kind: Ports.Kind) {
    kind.LIST? || kind.DICT? || kind.MODEL? || kind.UNION?
  }

  /** What each kind of port makes of a value that is no container. */
  lemma ScalarsShrink(port: Port, v: Scalar)
    requires !v.NoneV?
    ensures port.kind.BOOL? ==>
              && (forall b :: v == BoolV(b) ==> ShrunkScalar(port, v) == Some(Bool(b)))
              && (v == IntV(0) ==> ShrunkScalar(port, v) == Some(Bool(false)))
              && (v == IntV(1) ==> ShrunkScalar(port, v) == Some(Bool(true)))
              && (v.IntV? && v.n != 0 && v.n != 1 ==> ShrunkScalar(port, v) == None)
              && (v.StrV? && Lower(v.s) == "true" ==> ShrunkScalar(port, v) == Some(Bool(true)))
              && (v.StrV? && Lower(v.s) == "false" ==> ShrunkScalar(port, v) == Some(Bool(false)))
              && (v.StrV? && Lower(v.s) != "true" && Lower(v.s) != "false" ==> ShrunkScalar(port, v) == None)
    ensures port.kind.INT? || port.kind.FLOAT? ==>
              && (forall n :: v == IntV(n) ==> ShrunkScalar(port, v) == Some(Num(n)))
              && (v == BoolV(false) ==> ShrunkScalar(port, v) == Some(Num(0)))
              && (v == BoolV(true) ==> ShrunkScalar(port, v) == Some(Num(1)))
              && (v.StrV? ==> ShrunkScalar(port, v) == None)
    ensures port.kind.STRING? ==>
              && (forall s :: v == StrV(s) ==> ShrunkScalar(port, v) == Some(Str(s)))
              && (v.BoolV? || v.IntV? ==> ShrunkScalar(port, v) == None)
    ensures !(port.kind.BOOL? || port.kind.INT? || port.kind.FLOAT? || port.kind.STRING?) && !v.Thing? ==>
              ShrunkScalar(port, v) == None
    ensures v.Thing? && ShrunkScalar(port, v).Some? ==>
              v.kind == port.kind && v.identifier == port.identifier && ShrunkScalar(port, v) == Some(v.v)
    ensures v.Thing? && v.kind == port.kind && v.identifier == port.identifier && !HasChildren(v.kind) ==>
              ShrunkScalar(port, v) == Some(v.v)
  {
    if v.BoolV? {
      assert v == BoolV(true) || v == BoolV(false);
    }
  }

  /** None goes through a nullable port and no other, whatever its kind. */
  lemma NoneShrinksIff(port: Port)
    ensures Shrinkable(port, Leaf(NoneV)) <==> port.nullable
    ensures port.nullable ==> Shrunk(port, Leaf(NoneV)) == Null
  {
  }

  lemma LowerWords()
    ensures Lower("true") == Lower("True") == Lower("TRUE") == "true"
    ensures Lower("false") == Lower("False") == Lower("FALSE") == "false"
  {
  }

  const IDENTIFIER := "__identifier"

  /** The port that a child is shrunk with. The identifier of a model covers a field of that name. */
  function OwnPort(port: Port, t: string): Option<Port> {
    match port.kind
    case LIST => if |port.children| == 1 then Some(port.children[0]) else None
    case DICT => if |port.children| == 1 then Some(port.children[0]) else None
    case MODEL => if t == IDENTIFIER && port.identifier.Some? then None else FindPort(port.children, t)
    case _ => None
  }

  function Names(port: Port): set<string> {
    set i | 0 <= i < |port.children| :: port.children[i].key
  }

  /** The value can be shrunk through the port. A model without an identifier is the state itself. */
  predicate Shrinkable(port: Port, n: Node)
    decreases n, port
  {
    if n.Leaf? && n.v.NoneV? then port.nullable
    else if port.kind.UNION? then
      var i := Chosen(port.children, n, 0);
      i.Some? && Shrinkable(port.children[i.value], n)
    else
      match n
      case Leaf(v) => ShrunkScalar(port, v).Some?
      case Dict(_, _, fields) =>
        && port.kind.DICT? && |port.children| == 1
        && forall k :: k in fields ==> Shrinkable(port.children[0], fields[k])
      case List(_, _, items) =>
        && port.kind.LIST? && |port.children| == 1
        && forall i :: 0 <= i < |items| ==> Shrinkable(port.children[0], items[i])
      case Data(_, _, _, _, fields) =>
        && port.kind.MODEL? && (port.identifier.Some? ==> port.children != [])
        && (forall k :: k in Members(port) && OwnPort(port, k).Some? ==>
              k in fields && Shrinkable(OwnPort(port, k).value, fields[k]))
  }

  /** The members of a shrunk model. */
  function Members(port: Port): set<string> {
    set k | k in Names(port) + {IDENTIFIER} && (OwnPort(port, k).Some? || (k == IDENTIFIER && port.identifier.Some?))
  }

  function Shrunk(port: Port, n: Node): Json
    requires Shrinkable(port, n)
    decreases n, port
  {
    if n.Leaf? && n.v.NoneV? then Null
    else if port.kind.UNION? then
      var i := Chosen(port.children, n, 0).value;
      Obj(map["__use" := Num(i), "__value" := Shrunk(port.children[i], n)])
    else
      match n
      case Leaf(v) => ShrunkScalar(port, v).value
      case Dict(_, _, fields) => Obj(map k | k in fields :: Shrunk(port.children[0], fields[k]))
      case List(_, _, items) => Arr(seq(|items|, i requires 0 <= i < |items| => Shrunk(port.children[0], items[i])))
      case Data(_, _, _, _, fields) =>
        Obj(map k | k in Members(port) ::
          if OwnPort(port, k).Some? then Shrunk(OwnPort(port, k).value, fields[k]) else Str(port.identifier.value))
  }

  /** The state itself. */
  function Root(top: seq<Port>): Port {
    Ports.Port("", Ports.MODEL, false, None, top, [])
  }

  // ---------------------------------------------------------------- what a variant takes, and what shrinks

  predicate IsLeafKind(kind: Ports.Kind) {
    !HasChildren(kind)
  }

  /** A `Thing` is of a kind that has no values of its own here. */
  predicate ProperScalar(v: Scalar) {
    v.Thing? ==> IsLeafKind(v.kind) && !v.kind.BOOL? && !v.kind.INT? && !v.kind.STRING?
  }

  ghost predicate Proper(n: Node)
    decreases n
  {
    match n
    case Leaf(v) => ProperScalar(v)
    case List(_, _, items) => forall i :: 0 <= i < |items| ==> Proper(items[i])
    case _ => forall k :: k in n.fields ==> Proper(n.fields[k])
  }

  /** A port of lists and dictionaries, each with its one child, down to ports without children. */
  predicate Formed(port: Port)
    decreases port
  {
    if port.kind.LIST? || port.kind.DICT? then |port.children| == 1 && Formed(port.children[0])
    else IsLeafKind(port.kind)
  }

  /** And one that no value of another type goes through. */
  predicate Exact(port: Port)
    decreases port
  {
    && !port.nullable
    && if port.kind.LIST? || port.kind.DICT? then |port.children| == 1 && Exact(port.children[0])
       else IsLeafKind(port.kind) && !port.kind.FLOAT? && !port.kind.BOOL?
  }

  /** A port without children takes what shrinks through it, but for None, for a whole number as a float and for
      anything but a bool as a bool. It never raises. */
  lemma TakenScalar(port: Port, v: Scalar)
    requires IsLeafKind(port.kind) && ProperScalar(v)
    ensures Verdict(port, Leaf(v)).Some?
    ensures Verdict(port, Leaf(v)).value <==>
              && ShrunkScalar(port, v).Some? && !v.NoneV?
              && (port.kind.FLOAT? ==> v.Thing?) && (port.kind.BOOL? ==> v.BoolV?)
  {
  }

  /** A variant of lists and dictionaries never raises, and what it takes can be shrunk through it. */
  lemma {:induction false} TakenShrinks(port: Port, n: Node)
    requires Formed(port) && Proper(n)
    ensures Verdict(port, n).Some?
    ensures Verdict(port, n).value ==> Shrinkable(port, n)
    decreases n
  {
    match n
    case Leaf(v) =>
      if IsLeafKind(port.kind) {
        TakenScalar(port, v);
      }
    case List(_, _, items) =>
      if port.kind.LIST? {
        forall i | 0 <= i < |items|
          ensures Verdict(port.children[0], items[i]).Some?
          ensures Verdict(port.children[0], items[i]).value ==> Shrinkable(port.children[0], items[i])
        {
          TakenShrinks(port.children[0], items[i]);
        }
      }
    case Dict(_, _, fields) =>
      if port.kind.DICT? {
        forall k | k in fields
          ensures Verdict(port.children[0], fields[k]).Some?
          ensures Verdict(port.children[0], fields[k]).value ==> Shrinkable(port.children[0], fields[k])
        {
          TakenShrinks(port.children[0], fields[k]);
        }
      }
    case Data(_, _, _, _, _) =>
  }

  lemma {:induction false} ExactFormed(port: Port)
    requires Exact(port)
    ensures Formed(port)
    decreases port
  {
    if port.kind.LIST? || port.kind.DICT? {
      ExactFormed(port.children[0]);
    }
  }

  /** An exact variant takes precisely the values that can be shrunk through it, however deep they are. */
  lemma {:induction false} TakenIffShrinks(port: Port, n: Node)
    requires Exact(port) && Proper(n)
    ensures Verdict(port, n) == Some(Shrinkable(port, n))
    decreases n
  {
    ExactFormed(port);
    TakenShrinks(port, n);
    match n
    case Leaf(v) =>
      if IsLeafKind(port.kind) {
        TakenScalar(port, v);
      }
    case List(_, _, items) =>
      if port.kind.LIST? {
        forall i | 0 <= i < |items|
          ensures Verdict(port.children[0], items[i]) == Some(Shrinkable(port.children[0], items[i]))
        {
          TakenIffShrinks(port.children[0], items[i]);
        }
      }
    case Dict(_, _, fields) =>
      if port.kind.DICT? {
        forall k | k in fields
          ensures Verdict(port.children[0], fields[k]) == Some(Shrinkable(port.children[0], fields[k]))
        {
          TakenIffShrinks(port.children[0], fields[k]);
        }
      }
    case Data(_, _, _, _, _) =>
  }

  /** A model variant takes the dataclasses of its class. A union as a variant always raises, one as the items of a list
      or the entries of a dictionary does as soon as there are any, and a list or dictionary that has no port for them
      does so even if there are none. */
  lemma OtherVariants(port: Port, n: Node)
    ensures port.kind.MODEL? ==> Verdict(port, n) == Some(n.Data? && Some(n.cls) == port.identifier)
    ensures port.kind.UNION? ==> Verdict(port, n) == None
    ensures port.kind.LIST? && n.List? && port.children == [] ==> Verdict(port, n) == None
    ensures port.kind.DICT? && n.Dict? && port.children == [] ==> Verdict(port, n) == None
    ensures port.kind.LIST? && n.List? && port.children != [] && port.children[0].kind.UNION? ==>
              (Verdict(port, n) == None <==> n.items != [])
    ensures port.kind.DICT? && n.Dict? && port.children != [] && port.children[0].kind.UNION? ==>
              (Verdict(port, n) == None <==> n.fields.Keys != {})
    ensures (port.kind.LIST? && !n.List?) || (port.kind.DICT? && !n.Dict?) ==> Verdict(port, n) == Some(false)
  {
    if n.List? && n.items != [] && port.children != [] {
      assert port.children[0].kind.UNION? ==> Verdict(port.children[0], n.items[0]).None?;
    }
    if n.Dict? && n.fields.Keys != {} && port.children != [] {
      var k :| k in n.fields;
      assert port.children[0].kind.UNION? ==> Verdict(port.children[0], n.fields[k]).None?;
    }
  }

  /** The variant chosen is the first that takes the value, if none before it raises. */
  lemma {:induction false} ChosenIff(ports: seq<Port>, n: Node, i: nat, j: nat)
    requires i <= j < |ports|
    ensures Chosen(ports, n, i) == Some(j) <==>
              && Verdict(ports[j], n) == Some(true)
              && forall k :: i <= k < j ==> Verdict(ports[k], n) == Some(false)
    decreases |ports| - i
  {
    if i < j {
      if Verdict(ports[i], n) == Some(false) {
        ChosenIff(ports, n, i + 1, j);
      } else {
        assert !(forall k :: i <= k < j ==> Verdict(ports[k], n) == Some(false));
      }
    }
  }

  /** What a container becomes: a list as many items, a dictionary the same keys, a dataclass a member for each child of
      its port and its identifier, and the value of a union the number of its variant and the value. */
  lemma ContainersShrink(port: Port, n: Node)
    requires Shrinkable(port, n) && !(n.Leaf? && n.v.NoneV?)
    ensures port.kind.UNION? ==>
              && Shrunk(port, n).Obj? && Shrunk(port, n).fields.Keys == {"__use", "__value"}
              && exists i :: 0 <= i < |port.children| && Chosen(port.children, n, 0) == Some(i)
                             && Shrunk(port, n).fields["__use"] == Num(i) && Shrinkable(port.children[i], n)
                             && Shrunk(port, n).fields["__value"] == Shrunk(port.children[i], n)
    ensures !port.kind.UNION? && n.List? ==> Shrunk(port, n).Arr? && |Shrunk(port, n).items| == |n.items|
    ensures !port.kind.UNION? && n.Dict? ==> Shrunk(port, n).Obj? && Shrunk(port, n).fields.Keys == n.fields.Keys
    ensures !port.kind.UNION? && n.Data? ==> Shrunk(port, n).Obj?
    ensures !port.kind.UNION? && n.Data? && port.identifier.Some? ==>
              && Shrunk(port, n).fields.Keys == Names(port) + {IDENTIFIER}
              && Shrunk(port, n).fields[IDENTIFIER] == Str(port.identifier.value)
    ensures !port.kind.UNION? && n.Data? && port.identifier.None? ==> Shrunk(port, n).fields.Keys == Names(port)
  {
    if n.Data? && !port.kind.UNION? {
      MembersAre(port, n);
      MembersNamed(port);
    }
  }

  /** Through a port that is no union's: an empty list or dictionary needs a port of its kind with exactly one child; a
      dataclass without attributes the state itself if it has none, or a model of which only the identifier is asked. */
  lemma EmptyShrinksIff(port: Port, cls: string, path: string, own: Option<Port>)
    requires !port.kind.UNION?
    ensures Shrinkable(port, List(path, own, [])) <==> port.kind.LIST? && |port.children| == 1
    ensures Shrinkable(port, Dict(path, own, map[])) <==> port.kind.DICT? && |port.children| == 1
    ensures Shrinkable(port, Data(cls, true, path, own, map[])) <==>
              port.kind.MODEL? &&
              if port.identifier.None? then port.children == []
              else port.children != [] && forall i :: 0 <= i < |port.children| ==> port.children[i].key == IDENTIFIER
  {
    if port.kind.MODEL? {
      MembersNamed(port);
      forall k | k in Names(port) ensures FindPort(port.children, k).Some? {
        FindPortIff(port.children, k);
      }
      if port.identifier.None? && port.children != [] {
        assert port.children[0].key in Names(port) && OwnPort(port, port.children[0].key).Some?;
      }
      if i :| 0 <= i < |port.children| && port.children[i].key != IDENTIFIER {
        assert port.children[i].key in Names(port) && OwnPort(port, port.children[i].key).Some?;
      }
    }
  }

  lemma MembersNamed(port: Port)
    requires port.kind.MODEL?
    ensures Members(port) == Names(port) + (if port.identifier.Some? then {IDENTIFIER} else {})
  {
    forall k | k in Names(port) ensures FindPort(port.children, k).Some? {
      FindPortIff(port.children, k);
    }
    FindPortIff(port.children, IDENTIFIER);
  }

  // ---------------------------------------------------------------- places

  lemma OwnIsNamed(port: Port, k: string)
    requires port.kind.MODEL? && OwnPort(port, k).Some?
    ensures k in Members(port)
  {
    FindPortIff(port.children, k);
    var i :| 0 <= i < |port.children| && port.children[i].key == k;
    assert port.children[i].key in Names(port);
  }

  /** A container that is no union's is shrunk as what it is. */
  predicate Plain(port: Port, n: Node) {
    !port.kind.UNION? && !n.Leaf?
  }

  lemma ChildShrinks(port: Port, n: Node, t: string)
    requires Plain(port, n) && Shrinkable(port, n) && NodeChild(n, t).Some? && OwnPort(port, t).Some?
    ensures Shrinkable(OwnPort(port, t).value, NodeChild(n, t).value)
    ensures Child(Shrunk(port, n), t) == Some(Shrunk(OwnPort(port, t).value, NodeChild(n, t).value))
  {
    if n.Data? {
      OwnIsNamed(port, t);
    }
  }

  lemma WithShrinks(port: Port, n: Node, t: string, c: Node)
    requires Plain(port, n) && Shrinkable(port, n) && NodeChild(n, t).Some? && OwnPort(port, t).Some?
    ensures Child(Shrunk(port, n), t).Some?
    ensures Shrinkable(port, WithNode(n, t, c)) <==> Shrinkable(OwnPort(port, t).value, c)
    ensures Shrinkable(OwnPort(port, t).value, c) ==>
              Shrunk(port, WithNode(n, t, c)) == WithChild(Shrunk(port, n), t, Shrunk(OwnPort(port, t).value, c))
  {
    ChildShrinks(port, n, t);
    match n
    case List(_, _, items) => ItemShrinks(port, n, ParseIndex(t).value, c);
    case Dict(_, _, fields) => EntryShrinks(port, n, t, c);
    case Data(_, _, _, _, fields) => AttributeShrinks(port, n, t, c);
  }

  lemma ItemShrinks(port: Port, n: Node, j: nat, c: Node)
    requires n.List? && Shrinkable(port, n) && Plain(port, n) && j < |n.items|
    ensures var q := port.children[0];
      && (Shrinkable(port, WithItems(n, n.items[j := c])) <==> Shrinkable(q, c))
      && (Shrinkable(q, c) ==> Shrunk(port, WithItems(n, n.items[j := c])) ==
                               Arr(Shrunk(port, n).items[j := Shrunk(q, c)]))
  {
    var w := WithItems(n, n.items[j := c]);
    assert w.items[j] == c;
    if Shrinkable(port.children[0], c) {
      assert Shrunk(port, w).items == Shrunk(port, n).items[j := Shrunk(port.children[0], c)];
    }
  }

  lemma EntryShrinks(port: Port, n: Node, k: string, c: Node)
    requires n.Dict? && Shrinkable(port, n) && Plain(port, n)
    ensures var q := port.children[0];
      && (Shrinkable(port, WithFields(n, n.fields[k := c])) <==> Shrinkable(q, c))
      && (Shrinkable(q, c) ==> Shrunk(port, WithFields(n, n.fields[k := c])) ==
                               Obj(Shrunk(port, n).fields[k := Shrunk(q, c)]))
  {
    var w := WithFields(n, n.fields[k := c]);
    assert w.fields[k] == c;
    if Shrinkable(port.children[0], c) {
      assert Shrunk(port, w).fields == Shrunk(port, n).fields[k := Shrunk(port.children[0], c)];
    }
  }

  lemma AttributeShrinkable(port: Port, n: Node, k: string, c: Node)
    requires n.Data? && Shrinkable(port, n) && Plain(port, n)
    ensures Shrinkable(port, WithFields(n, n.fields[k := c])) <==>
            (OwnPort(port, k).Some? ==> Shrinkable(OwnPort(port, k).value, c))
  {
    var w := WithFields(n, n.fields[k := c]);
    assert w.fields[k] == c;
    if OwnPort(port, k).Some? {
      OwnIsNamed(port, k);
    }
  }

  lemma AttributeShrinks(port: Port, n: Node, k: string, c: Node)
    requires n.Data? && Shrinkable(port, n) && Plain(port, n) && OwnPort(port, k).Some?
    ensures var q := OwnPort(port, k).value;
      && (Shrinkable(port, WithFields(n, n.fields[k := c])) <==> Shrinkable(q, c))
      && (Shrinkable(q, c) ==> Shrunk(port, WithFields(n, n.fields[k := c])) ==
                               Obj(Shrunk(port, n).fields[k := Shrunk(q, c)]))
      && k in Shrunk(port, n).fields
  {
    AttributeShrinkable(port, n, k, c);
    OwnIsNamed(port, k);
    if Shrinkable(OwnPort(port, k).value, c) {
      AttributeSet(port, n, k, c);
    }
  }

  lemma AttributeSet(port: Port, n: Node, k: string, c: Node)
    requires n.Data? && Shrinkable(port, n) && Plain(port, n) && OwnPort(port, k).Some? && k in Members(port)
    requires Shrinkable(OwnPort(port, k).value, c) && Shrinkable(port, WithFields(n, n.fields[k := c]))
    ensures Shrunk(port, WithFields(n, n.fields[k := c])) ==
            Obj(Shrunk(port, n).fields[k := Shrunk(OwnPort(port, k).value, c)])
  {
    var w := WithFields(n, n.fields[k := c]);
    MembersAre(port, n);
    MembersAre(port, w);
    assert forall j :: j in Members(port) && j != k ==> MemberOf(port, w, j) == MemberOf(port, n, j);
    assert MemberOf(port, w, k) == Shrunk(OwnPort(port, k).value, c);
    SetOnly(Shrunk(port, n).fields, Shrunk(port, w).fields, k);
  }

  lemma SetOnly(a: map<string, Json>, b: map<string, Json>, k: string)
    requires a.Keys == b.Keys && k in a && forall j :: j in a && j != k ==> a[j] == b[j]
    ensures b == a[k := b[k]]
  {
  }

  function MemberOf(port: Port, n: Node, k: string): Json
    requires n.Data? && Shrinkable(port, n) && Plain(port, n) && k in Members(port)
  {
    if OwnPort(port, k).Some? then Shrunk(OwnPort(port, k).value, n.fields[k]) else Str(port.identifier.value)
  }

  lemma MembersAre(port: Port, n: Node)
    requires n.Data? && Shrinkable(port, n) && Plain(port, n)
    ensures Shrunk(port, n).Obj? && Shrunk(port, n).fields.Keys == Members(port)
    ensures forall k :: k in Members(port) ==> Shrunk(port, n).fields[k] == MemberOf(port, n, k)
  {
  }

  /** An attribute without a port of its own is not part of the shrunk value. */
  lemma HiddenAttribute(port: Port, n: Node, k: string, c: Node)
    requires n.Data? && Shrinkable(port, n) && Plain(port, n) && OwnPort(port, k).None?
    ensures Shrinkable(port, WithFields(n, n.fields[k := c]))
    ensures Shrunk(port, WithFields(n, n.fields[k := c])) == Shrunk(port, n)
  {
    AttributeShrinkable(port, n, k, c);
    assert Shrunk(port, WithFields(n, n.fields[k := c])).fields == Shrunk(port, n).fields;
  }

  /** The port that a place is shrunk with, if the way there leads through no union. */
  function PortAt(port: Port, p: seq<string>): Option<Port>
    decreases p
  {
    if p == [] then Some(port)
    else
      match OwnPort(port, p[0])
      case Some(q) => PortAt(q, p[1..])
      case None => None
  }

  lemma {:induction false} ShrunkAt(port: Port, n: Node, p: seq<string>)
    requires Shrinkable(port, n) && NodeAt(n, p).Some? && PortAt(port, p).Some?
    ensures Shrinkable(PortAt(port, p).value, NodeAt(n, p).value)
    ensures At(Shrunk(port, n), p) == Some(Shrunk(PortAt(port, p).value, NodeAt(n, p).value))
    decreases p
  {
    if p != [] {
      ChildShrinks(port, n, p[0]);
      ShrunkAt(OwnPort(port, p[0]).value, NodeChild(n, p[0]).value, p[1..]);
    }
  }

  lemma {:induction false} PutShrinks(port: Port, n: Node, p: seq<string>, c: Node)
    requires Shrinkable(port, n) && NodeAt(n, p).Some? && PortAt(port, p).Some?
    ensures var q := PortAt(port, p).value;
      && At(Shrunk(port, n), p).Some?
      && (Shrinkable(port, PutNode(n, p, c)) <==> Shrinkable(q, c))
      && (Shrinkable(q, c) ==> Shrunk(port, PutNode(n, p, c)) == Put(Shrunk(port, n), p, Shrunk(q, c)))
    decreases p
  {
    ShrunkAt(port, n, p);
    if p != [] {
      var own, child := OwnPort(port, p[0]).value, NodeChild(n, p[0]).value;
      ChildShrinks(port, n, p[0]);
      PutShrinks(own, child, p[1..], c);
      WithShrinks(port, n, p[0], PutNode(child, p[1..], c));
    }
  }

  // ---------------------------------------------------------------- what wrapping leaves alone

  /** A value without what evented containers remember. */
  function Bare(n: Node): Node
    decreases n
  {
    match n
    case Leaf(_) => n
    case Dict(_, _, fields) => Dict("", None, map k | k in fields :: Bare(fields[k]))
    case List(_, _, items) => List("", None, seq(|items|, i requires 0 <= i < |items| => Bare(items[i])))
    case Data(cls, _, _, _, fields) => Data(cls, false, "", None, map k | k in fields :: Bare(fields[k]))
  }

  lemma {:induction false} BareVerdict(port: Port, n: Node)
    ensures Verdict(port, Bare(n)) == Verdict(port, n)
    decreases n
  {
    match n
    case Leaf(_) =>
    case Dict(_, _, fields) =>
      if port.children != [] {
        forall k | k in fields
          ensures Verdict(port.children[0], Bare(n).fields[k]) == Verdict(port.children[0], fields[k])
        {
          BareVerdict(port.children[0], fields[k]);
        }
      }
    case List(_, _, items) =>
      if port.children != [] {
        forall i | 0 <= i < |items|
          ensures Verdict(port.children[0], Bare(n).items[i]) == Verdict(port.children[0], items[i])
        {
          BareVerdict(port.children[0], items[i]);
        }
      }
    case Data(_, _, _, _, _) =>
  }

  lemma {:induction false} BareChosen(ports: seq<Port>, n: Node, i: nat)
    requires i <= |ports|
    ensures Chosen(ports, Bare(n), i) == Chosen(ports, n, i)
    decreases |ports| - i
  {
    if i < |ports| {
      BareVerdict(ports[i], n);
      BareChosen(ports, n, i + 1);
    }
  }

  /** Shrinking does not see it. */
  lemma {:induction false} BareShrinks(port: Port, n: Node)
    ensures Shrinkable(port, Bare(n)) <==> Shrinkable(port, n)
    ensures Shrinkable(port, n) ==> Shrunk(port, Bare(n)) == Shrunk(port, n)
    decreases n, port
  {
    if port.kind.UNION? {
      BareChosen(port.children, n, 0);
      var i := Chosen(port.children, n, 0);
      if i.Some? {
        BareShrinks(port.children[i.value], n);
      }
    } else {
      match n
      case Leaf(_) =>
      case Dict(_, _, _) => BareEntries(port, n);
      case List(_, _, _) => BareItems(port, n);
      case Data(_, _, _, _, _) => BareAttributes(port, n);
    }
  }

  lemma BareEntries(port: Port, n: Node)
    requires n.Dict? && !port.kind.UNION?
    ensures Shrinkable(port, Bare(n)) <==> Shrinkable(port, n)
    ensures Shrinkable(port, n) ==> Shrunk(port, Bare(n)) == Shrunk(port, n)
    decreases n, port, 0
  {
    if |port.children| == 1 {
      var q := port.children[0];
      forall k | k in n.fields
        ensures Shrinkable(q, Bare(n).fields[k]) <==> Shrinkable(q, n.fields[k])
        ensures Shrinkable(q, n.fields[k]) ==> Shrunk(q, Bare(n).fields[k]) == Shrunk(q, n.fields[k])
      {
        BareShrinks(q, n.fields[k]);
      }
    }
  }

  lemma BareItems(port: Port, n: Node)
    requires n.List? && !port.kind.UNION?
    ensures Shrinkable(port, Bare(n)) <==> Shrinkable(port, n)
    ensures Shrinkable(port, n) ==> Shrunk(port, Bare(n)) == Shrunk(port, n)
    decreases n, port, 0
  {
    if |port.children| == 1 {
      var q := port.children[0];
      forall i | 0 <= i < |n.items|
        ensures Shrinkable(q, Bare(n).items[i]) <==> Shrinkable(q, n.items[i])
        ensures Shrinkable(q, n.items[i]) ==> Shrunk(q, Bare(n).items[i]) == Shrunk(q, n.items[i])
      {
        BareShrinks(q, n.items[i]);
      }
    }
  }

  lemma BareAttributes(port: Port, n: Node)
    requires n.Data? && !port.kind.UNION?
    ensures Shrinkable(port, Bare(n)) <==> Shrinkable(port, n)
    ensures Shrinkable(port, n) ==> Shrunk(port, Bare(n)) == Shrunk(port, n)
    decreases n, port, 0
  {
    var b := Bare(n);
    forall k | k in n.fields && OwnPort(port, k).Some?
      ensures var q := OwnPort(port, k).value;
        && (Shrinkable(q, b.fields[k]) <==> Shrinkable(q, n.fields[k]))
        && (Shrinkable(q, n.fields[k]) ==> Shrunk(q, b.fields[k]) == Shrunk(q, n.fields[k]))
    {
      BareShrinks(OwnPort(port, k).value, n.fields[k]);
    }
    if Shrinkable(port, n) {
      assert Shrunk(port, b).fields == Shrunk(port, n).fields;
    }
  }

  lemma {:induction false} WrapBare(top: seq<Port>, n: Node, path: string, port: Option<Port>)
    ensures Bare(Wrap(top, n, path, port)) == Bare(n)
    decreases n, 1
  {
    match n
    case Leaf(_) =>
    case List(_, _, _) => WrapItemsBare(top, n, path, port);
    case _ => WrapFieldsBare(top, n, path, port);
  }

  lemma {:induction false} WrapItemsBare(top: seq<Port>, n: Node, path: string, port: Option<Port>)
    requires n.List?
    ensures Bare(Wrap(top, n, path, port)) == Bare(n)
    decreases n, 0
  {
    var w := Wrap(top, n, path, port);
    forall i | 0 <= i < |n.items| ensures Bare(w.items[i]) == Bare(n.items[i]) {
      WrapBare(top, n.items[i], ItemPath(path, i), ChildPort(top, port, Index(i)));
    }
    assert Bare(w).items == Bare(n).items;
  }

  lemma {:induction false} WrapFieldsBare(top: seq<Port>, n: Node, path: string, port: Option<Port>)
    requires n.Dict? || n.Data?
    ensures Bare(Wrap(top, n, path, port)) == Bare(n)
    decreases n, 0
  {
    var fields := WrapFields(top, n, path, port);
    forall k | k in n.fields ensures Bare(fields[k]) == Bare(n.fields[k]) {
      WrapBare(top, n.fields[k], MakePath(path, k), ChildPort(top, port, Name(k)));
    }
    assert Bare(Wrap(top, n, path, port)).fields == Bare(n).fields;
  }

  /** Wrapping a value does not change what it shrinks to. */
  lemma WrapShrinks(top: seq<Port>, n: Node, path: string, port: Option<Port>, q: Port)
    ensures Shrinkable(q, Wrap(top, n, path, port)) <==> Shrinkable(q, n)
    ensures Shrinkable(q, n) ==> Shrunk(q, Wrap(top, n, path, port)) == Shrunk(q, n)
  {
    WrapBare(top, n, path, port);
    BareShrinks(q, n);
    BareShrinks(q, Wrap(top, n, path, port));
  }

  lemma RepathShrinks(n: Node, path: string, q: Port)
    ensures Shrinkable(q, Repath(n, path)) <==> Shrinkable(q, n)
    ensures Shrinkable(q, n) ==> Shrunk(q, Repath(n, path)) == Shrunk(q, n)
  {
    BareShrinks(q, n);
    BareShrinks(q, Repath(n, path));
  }

  // ---------------------------------------------------------------- changes

  /** The port that the value of a change is shrunk with as part of its container. */
  function ChangePort(q: Port, ch: Change): Option<Port> {
    match ch
    case SetKey(k, _) => OwnPort(q, k)
    case SetAttr(k, _) => OwnPort(q, k)
    case DeleteKey(k) => OwnPort(q, k)
    case _ => OwnPort(q, "")
  }

  /** The change as a mutation of the shrunk container. */
  function ShrunkChange(q: Port, ch: Change): Mutation
    requires TakesValue(ch) ==> ChangePort(q, ch).Some? && Shrinkable(ChangePort(q, ch).value, ch.n)
  {
    AsMutation(ch, if TakesValue(ch) then Shrunk(ChangePort(q, ch).value, ch.n) else Null)
  }

  /** Whether the container can still be shrunk after the change, and as what. */
  ghost predicate ShrinksTo(q: Port, c: Node, ch: Change, after: Node)
    requires Shrinkable(q, c)
  {
    if TakesValue(ch) && ChangePort(q, ch).None? then
      Shrinkable(q, after) && Shrunk(q, after) == Shrunk(q, c)
    else
      && (Shrinkable(q, after) <==> (TakesValue(ch) ==> Shrinkable(ChangePort(q, ch).value, ch.n)))
      && (Shrinkable(q, after) ==> Mutated(Shrunk(q, c), ShrunkChange(q, ch)) == Some(Shrunk(q, after)))
  }

  ghost predicate AllShrinkable(q: Port, items: seq<Node>) {
    forall i :: 0 <= i < |items| ==> Shrinkable(q, items[i])
  }

  function ShrunkAll(q: Port, items: seq<Node>): seq<Json>
    requires AllShrinkable(q, items)
  {
    seq(|items|, i requires 0 <= i < |items| => Shrunk(q, items[i]))
  }

  lemma ListShrinks(q: Port, c: Node, items: seq<Node>)
    requires c.List? && Plain(q, c) && Shrinkable(q, c)
    ensures q.kind.LIST? && |q.children| == 1
    ensures Shrinkable(q, WithItems(c, items)) <==> AllShrinkable(q.children[0], items)
    ensures AllShrinkable(q.children[0], items) ==>
              Shrunk(q, WithItems(c, items)) == Arr(ShrunkAll(q.children[0], items))
    ensures Shrunk(q, c) == Arr(ShrunkAll(q.children[0], c.items))
  {
  }

  lemma Appended(top: seq<Port>, c: Node, n: Node, path: string, port: Option<Port>, q: Port)
    requires c.List? && Plain(q, c) && Shrinkable(q, c)
    ensures var own, after := OwnPort(q, "").value, WithItems(c, c.items + [Wrap(top, n, path, port)]);
      && (Shrinkable(q, after) <==> Shrinkable(own, n))
      && (Shrinkable(own, n) ==> Shrunk(q, after) == Arr(Shrunk(q, c).items + [Shrunk(own, n)]))
  {
    var w, own := Wrap(top, n, path, port), q.children[0];
    WrapShrinks(top, n, path, port, own);
    ListShrinks(q, c, c.items + [w]);
    assert (c.items + [w])[|c.items|] == w;
    if Shrinkable(own, n) {
      assert AllShrinkable(own, c.items + [w]);
      assert ShrunkAll(own, c.items + [w]) == ShrunkAll(own, c.items) + [Shrunk(own, w)];
    }
  }

  lemma ReindexedShrinks(q: Port, items: seq<Node>, base: string, start: nat)
    ensures AllShrinkable(q, Reindexed(items, base, start)) <==> AllShrinkable(q, items)
    ensures AllShrinkable(q, items) ==> ShrunkAll(q, Reindexed(items, base, start)) == ShrunkAll(q, items)
  {
    var moved := Reindexed(items, base, start);
    forall j | 0 <= j < |items|
      ensures Shrinkable(q, moved[j]) <==> Shrinkable(q, items[j])
      ensures Shrinkable(q, items[j]) ==> Shrunk(q, moved[j]) == Shrunk(q, items[j])
    {
      RepathShrinks(items[j], ItemPath(base, j), q);
    }
    if AllShrinkable(q, items) {
      assert AllShrinkable(q, moved);
      assert ShrunkAll(q, moved) == ShrunkAll(q, items);
    }
  }

  lemma InsertedShrinks(top: seq<Port>, c: Node, j: nat, n: Node, path: string, port: Option<Port>, q: Port)
    requires c.List? && Plain(q, c) && Shrinkable(q, c) && j <= |c.items|
    ensures var own, after := OwnPort(q, "").value, WithItems(c, Inserted(c, j, Wrap(top, n, path, port)));
      && (Shrinkable(q, after) <==> Shrinkable(own, n))
      && (Shrinkable(own, n) ==>
            Shrunk(q, after) == Arr(Shrunk(q, c).items[..j] + [Shrunk(own, n)] + Shrunk(q, c).items[j..]))
  {
    var w, own := Wrap(top, n, path, port), q.children[0];
    var items := c.items[..j] + [w] + c.items[j..];
    WrapShrinks(top, n, path, port, own);
    ReindexedShrinks(own, items, c.path, j + 1);
    ListShrinks(q, c, Inserted(c, j, w));
    ItemInserted(own, c.items, j, w);
  }

  lemma ItemInserted(own: Port, items: seq<Node>, j: nat, w: Node)
    requires AllShrinkable(own, items) && j <= |items|
    ensures var more := items[..j] + [w] + items[j..];
      && (AllShrinkable(own, more) <==> Shrinkable(own, w))
      && (Shrinkable(own, w) ==>
            ShrunkAll(own, more) == ShrunkAll(own, items)[..j] + [Shrunk(own, w)] + ShrunkAll(own, items)[j..])
  {
    var more := items[..j] + [w] + items[j..];
    assert more[j] == w;
    if Shrinkable(own, w) {
      assert AllShrinkable(own, more);
      assert ShrunkAll(own, more) == ShrunkAll(own, items)[..j] + [Shrunk(own, w)] + ShrunkAll(own, items)[j..];
    }
  }

  lemma DeletedShrinks(c: Node, i: int, q: Port)
    requires c.List? && Plain(q, c) && Shrinkable(q, c) && 0 <= Normal(i, |c.items|) < |c.items|
    ensures Shrinkable(q, WithItems(c, Without1(c, i)))
    ensures Deleted(Shrunk(q, c).items, i) == Some(Shrunk(q, WithItems(c, Without1(c, i))))
  {
    var j := Normal(i, |c.items|);
    DeletedFrom(c, j, if i >= 0 then i else if j == 0 then |c.items| else 0, q);
  }

  lemma DeletedFrom(c: Node, j: nat, start: nat, q: Port)
    requires c.List? && Plain(q, c) && Shrinkable(q, c) && j < |c.items|
    ensures var after := WithItems(c, Reindexed(c.items[..j] + c.items[j + 1..], c.path, start));
      && Shrinkable(q, after) && Shrunk(q, c).Arr? && |Shrunk(q, c).items| == |c.items|
      && Shrunk(q, after) == Arr(Shrunk(q, c).items[..j] + Shrunk(q, c).items[j + 1..])
  {
    var own, left := q.children[0], c.items[..j] + c.items[j + 1..];
    ListShrinks(q, c, Reindexed(left, c.path, start));
    ItemDeleted(own, c.items, j);
    ReindexedShrinks(own, left, c.path, start);
  }

  lemma ItemDeleted(own: Port, items: seq<Node>, j: nat)
    requires AllShrinkable(own, items) && j < |items|
    ensures AllShrinkable(own, items[..j] + items[j + 1..])
    ensures ShrunkAll(own, items[..j] + items[j + 1..]) == ShrunkAll(own, items)[..j] + ShrunkAll(own, items)[j + 1..]
  {
    var left := items[..j] + items[j + 1..];
    assert AllShrinkable(own, left);
    assert ShrunkAll(own, left) == ShrunkAll(own, items)[..j] + ShrunkAll(own, items)[j + 1..];
  }

  lemma KeyDeleted(c: Node, k: string, q: Port)
    requires c.Dict? && Plain(q, c) && Shrinkable(q, c) && k in c.fields
    ensures Shrinkable(q, WithFields(c, Without(c.fields, k)))
    ensures Shrunk(q, WithFields(c, Without(c.fields, k))) == Obj(Without(Shrunk(q, c).fields, k))
  {
    assert Shrunk(q, WithFields(c, Without(c.fields, k))).fields == Without(Shrunk(q, c).fields, k);
  }

  lemma ItemReplaced(top: seq<Port>, c: Node, j: nat, n: Node, path: string, port: Option<Port>, q: Port)
    requires c.List? && Plain(q, c) && Shrinkable(q, c) && j < |c.items|
    ensures var own, after := OwnPort(q, "").value, WithItems(c, c.items[j := Wrap(top, n, path, port)]);
      && (Shrinkable(q, after) <==> Shrinkable(own, n))
      && (Shrinkable(own, n) ==> Shrunk(q, after) == Arr(Shrunk(q, c).items[j := Shrunk(own, n)]))
  {
    WrapShrinks(top, n, path, port, q.children[0]);
    ItemShrinks(q, c, j, Wrap(top, n, path, port));
  }

  lemma ItemChange(top: seq<Port>, c: Node, ch: Change, q: Port)
    requires Applies(c, ch) && Plain(q, c) && Shrinkable(q, c) && c.List? && TakesValue(ch)
    ensures ShrinksTo(q, c, ch, After(top, c, ch))
  {
    var port, n := ChildPort(top, c.port, KeyOf(c, ch)), |c.items|;
    match ch
    case SetItem(i, v) => ItemReplaced(top, c, Normal(i, n), v, ItemPath(c.path, i), port, q);
    case Append(v) => Appended(top, c, v, ItemPath(c.path, n), port, q);
    case Insert(i, v) => InsertedShrinks(top, c, Clamp(i, n), v, ItemPath(c.path, Clamp(i, n)), port, q);
  }

  lemma EntryChange(top: seq<Port>, c: Node, k: string, n: Node, port: Option<Port>, q: Port)
    requires c.Dict? && Plain(q, c) && Shrinkable(q, c)
    ensures ShrinksTo(q, c, Change.SetKey(k, n), WithFields(c, c.fields[k := Wrap(top, n, MakePath(c.path, k), port)]))
  {
    WrapShrinks(top, n, MakePath(c.path, k), port, q.children[0]);
    EntryShrinks(q, c, k, Wrap(top, n, MakePath(c.path, k), port));
  }

  lemma AttributeAfter(top: seq<Port>, c: Node, k: string, n: Node, port: Option<Port>, q: Port)
    requires c.Data? && Plain(q, c) && Shrinkable(q, c) && OwnPort(q, k).Some?
    ensures var own := OwnPort(q, k).value;
      var after := WithFields(c, c.fields[k := Wrap(top, n, MakePath(c.path, k), port)]);
      && (Shrinkable(q, after) <==> Shrinkable(own, n))
      && (Shrinkable(own, n) ==> Shrunk(q, after) == Obj(Shrunk(q, c).fields[k := Shrunk(own, n)]))
      && Shrunk(q, c).Obj?
  {
    WrapShrinks(top, n, MakePath(c.path, k), port, OwnPort(q, k).value);
    AttributeShrinks(q, c, k, Wrap(top, n, MakePath(c.path, k), port));
  }

  lemma AttributeChange(top: seq<Port>, c: Node, k: string, n: Node, port: Option<Port>, q: Port)
    requires c.Data? && Plain(q, c) && Shrinkable(q, c)
    ensures ShrinksTo(q, c, Change.SetAttr(k, n), WithFields(c, c.fields[k := Wrap(top, n, MakePath(c.path, k), port)]))
  {
    if OwnPort(q, k).Some? {
      AttributeAfter(top, c, k, n, port, q);
      AttributeTo(q, c, k, n, WithFields(c, c.fields[k := Wrap(top, n, MakePath(c.path, k), port)]));
    } else {
      HiddenAttribute(q, c, k, Wrap(top, n, MakePath(c.path, k), port));
    }
  }

  lemma AttributeTo(q: Port, c: Node, k: string, n: Node, after: Node)
    requires Shrinkable(q, c) && OwnPort(q, k).Some? && Shrunk(q, c).Obj?
    requires Shrinkable(q, after) <==> Shrinkable(OwnPort(q, k).value, n)
    requires Shrinkable(q, after) ==> Shrunk(q, after) == Obj(Shrunk(q, c).fields[k := Shrunk(OwnPort(q, k).value, n)])
    ensures ShrinksTo(q, c, Change.SetAttr(k, n), after)
  {
  }

  /** What a change makes of the shrunk container is what the mutation makes of it. */
  lemma AfterShrinks(top: seq<Port>, c: Node, ch: Change, q: Port)
    requires Applies(c, ch) && Plain(q, c) && Shrinkable(q, c)
    ensures ShrinksTo(q, c, ch, After(top, c, ch))
  {
    var port := ChildPort(top, c.port, KeyOf(c, ch));
    match ch
    case SetKey(k, n) => EntryChange(top, c, k, n, port, q);
    case SetAttr(k, n) => AttributeChange(top, c, k, n, port, q);
    case DeleteKey(k) => KeyDeleted(c, k, q);
    case DeleteItem(i) => DeletedShrinks(c, i, q);
    case Pop(i) => PopShrinks(c, i, q);
    case _ => ItemChange(top, c, ch, q);
  }

  lemma PopShrinks(c: Node, i: int, q: Port)
    requires c.List? && Plain(q, c) && Shrinkable(q, c) && 0 <= Normal(Normal(i, |c.items|), |c.items|) < |c.items|
    ensures Shrinkable(q, WithItems(c, Without1(c, Normal(i, |c.items|))))
    ensures var j := Normal(i, |c.items|);
      Deleted(Shrunk(q, c).items, j) == Some(Shrunk(q, WithItems(c, Without1(c, j))))
  {
    DeletedShrinks(c, Normal(i, |c.items|), q);
  }

  /** The shrunk container has the frame of the container as far as a mutation sees it. */
  lemma SameFrame(q: Port, c: Node, ch: Change, v: Json)
    requires Applies(c, ch) && Plain(q, c) && Shrinkable(q, c)
    ensures Mutated(Shrunk(q, c), AsMutation(ch, v)).Some?
    ensures Emitted("", Shrunk(q, c), AsMutation(ch, v)).op == Emitted("", Frame(c), AsMutation(ch, Null)).op
    ensures LastToken(Shrunk(q, c), AsMutation(ch, v)) == LastToken(Frame(c), AsMutation(ch, Null))
    ensures Emitted(c.path, Shrunk(q, c), AsMutation(ch, v)).path ==
            Emitted(c.path, Frame(c), AsMutation(ch, Null)).path
  {
  }
}
