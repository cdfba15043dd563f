/** From a type hint to ports (`convert_object_to_argport` and `convert_object_to_returnport`,
    rekuest_next/definition/define.py), from ports to match trees (rekuest_next/definition/match.py), and from a
    match tree and a dotted path to the match it names (`_resolve_port_match_path`, rekuest_next/blok/parser.py). */
module Ports {
  import opened Prelude
  import opened JsonPointer

  /** The class of a default value: a leaf takes its kind from it when its own class says nothing earlier. */
  datatype Default = NoDefault | BoolValue | IntValue | FloatValue | DateValue | StrValue | OtherValue

  /** A finite type hint. A union lists its members other than None; `Optional[T]` is `UnionT([T], true)`.
      An annotation may carry a default and constraints (requires or provides). */
  datatype Type =
    | BoolT | IntT | FloatT | DateT | StrT | QuantityT | LiteralT(cls: string) | StructureT(cls: string)
    | ModelT(identifier: string, fields: seq<Field>)
    | ListT(item: Type)
    | DictT(item: Type)
    | UnionT(variants: seq<Type>, optional: bool)
    | AnnotatedT(inner: Type, default: Default, constraints: seq<string>)

  datatype Field = Field(name: string, default: Default, t: Type)

  datatype Kind =
    | BOOL | INT | FLOAT | DATE | STRING | QUANTITY | MODEL | LIST | DICT | UNION | ENUM | STRUCTURE | MEMORY_STRUCTURE

  /** What the structure registry knows of a class: its port has this kind and identifier, and no children. */
  datatype Known = Known(kind: Kind, identifier: string)

  type Registry = map<string, Known>

  /** `constraints` is `requires` on an argument port and `provides` on a return port. */
  datatype Port = Port(key: string, kind: Kind, nullable: bool, identifier: Option<string>, children: seq<Port>,
                       constraints: seq<string>)

  // ---------------------------------------------------------------- the compilers

  /** The port of a type that is no container; `None` is an error. A literal goes to the registry first; a default
      decides before the later classes are tried. */
  function LeafPort(reg: Registry, t: Type, key: string, d: Default, nullable: bool, extras: seq<string>)
    : Option<Port>
  {
    if t.LiteralT? then RegistryPort(reg, t.cls, key, nullable, extras)
    else if t.BoolT? || d.BoolValue? then Some(Port(key, BOOL, nullable, None, [], extras))
    else if t.IntT? || d.IntValue? then Some(Port(key, INT, nullable, None, [], extras))
    else if t.FloatT? || d.FloatValue? then Some(Port(key, FLOAT, nullable, None, [], extras))
    else if t.DateT? || d.DateValue? then Some(Port(key, DATE, nullable, None, [], extras))
    else if t.StrT? || d.StrValue? then Some(Port(key, STRING, nullable, None, [], extras))
    else if t.QuantityT? then Some(Port(key, QUANTITY, nullable, None, [], extras))
    else if t.StructureT? then RegistryPort(reg, t.cls, key, nullable, extras)
    else None
  }

  function RegistryPort(reg: Registry, cls: string, key: string, nullable: bool, extras: seq<string>): Option<Port> {
    if cls in reg then Some(Port(key, reg[cls].kind, nullable, Some(reg[cls].identifier), [], extras)) else None
  }

  /** The kind of port for each type, when its default is of none of the classes that decide first. */
  lemma LeafKinds(reg: Registry, key: string, d: Default, nullable: bool, extras: seq<string>, cls: string)
    ensures d.NoDefault? || d.OtherValue? ==>
              && LeafPort(reg, BoolT, key, d, nullable, extras) == Some(Port(key, BOOL, nullable, None, [], extras))
              && LeafPort(reg, IntT, key, d, nullable, extras) == Some(Port(key, INT, nullable, None, [], extras))
              && LeafPort(reg, FloatT, key, d, nullable, extras) == Some(Port(key, FLOAT, nullable, None, [], extras))
              && LeafPort(reg, DateT, key, d, nullable, extras) == Some(Port(key, DATE, nullable, None, [], extras))
              && LeafPort(reg, StrT, key, d, nullable, extras) == Some(Port(key, STRING, nullable, None, [], extras))
              && LeafPort(reg, QuantityT, key, d, nullable, extras) ==
                   Some(Port(key, QUANTITY, nullable, None, [], extras))
              && LeafPort(reg, StructureT(cls), key, d, nullable, extras) ==
                   LeafPort(reg, LiteralT(cls), key, d, nullable, extras)
    ensures LeafPort(reg, LiteralT(cls), key, d, nullable, extras) ==
              if cls !in reg then None
              else Some(Port(key, reg[cls].kind, nullable, Some(reg[cls].identifier), [], extras))
  {
  }

  /** Of the type's own kind and that of its default, the one that comes first in the order bool, int, float, date,
      string decides; a default of one of these classes decides for any other type too, except a literal. */
  lemma DefaultsDecide(reg: Registry, t: Type, key: string, d: Default, nullable: bool, extras: seq<string>)
    requires t.BoolT? || t.IntT? || t.FloatT? || t.DateT? || t.StrT? || t.QuantityT? || t.StructureT?
    requires d.BoolValue? || d.IntValue? || d.FloatValue? || d.DateValue? || d.StrValue?
    ensures var p := LeafPort(reg, t, key, d, nullable, extras);
      && p.Some? && p.value == Port(key, p.value.kind, nullable, None, [], extras)
      && (p.value.kind.BOOL? <==> t.BoolT? || d.BoolValue?)
      && (p.value.kind.INT? <==> (t.IntT? || d.IntValue?) && !t.BoolT? && !d.BoolValue?)
      && (p.value.kind.STRING? <==> d.StrValue? && (t.StrT? || t.QuantityT? || t.StructureT?))
      && (p.value.kind.DATE? <==> (d.DateValue? && (t.DateT? || t.StrT? || t.QuantityT? || t.StructureT?))
                                  || (t.DateT? && d.StrValue?))
      && (p.value.kind.FLOAT? <==> !p.value.kind.BOOL? && !p.value.kind.INT? && (t.FloatT? || d.FloatValue?))
  {
  }

  /** Two defaults for one port are an error. */
  predicate TwoDefaults(annotated: Default, given: Default) {
    !annotated.NoDefault? && !given.NoDefault?
  }

  function Merged(annotated: Default, given: Default): Default {
    if annotated.NoDefault? then given else annotated
  }

  function ToArg(reg: Registry, t: Type, key: string, d: Default, nullable: bool, needs: seq<string>): Option<Port>
    decreases t
  {
    match t
    case UnionT(vs, optional) =>
      // Leaving out None starts over without the requirements.
      if optional && |vs| == 1 then ToArg(reg, vs[0], key, d, true, [])
      else
        var children := ArgVariants(reg, vs);
        if |vs| < 2 || children.None? then None
        else Some(Port(key, UNION, optional || nullable, None, children.value, if optional then [] else needs))
    case ModelT(identifier, fields) =>
      var children := ArgFields(reg, fields);
      if children.None? then None else Some(Port(key, MODEL, nullable, Some(identifier), children.value, []))
    case AnnotatedT(inner, default, more) =>
      if TwoDefaults(default, d) then None else ToArg(reg, inner, key, Merged(default, d), nullable, needs + more)
    case ListT(item) =>
      var child := ToArg(reg, item, "...", NoDefault, false, []);
      if child.None? then None else Some(Port(key, LIST, nullable, None, [child.value], needs))
    case DictT(item) =>
      var child := ToArg(reg, item, "...", NoDefault, false, []);
      if child.None? then None else Some(Port(key, DICT, nullable, None, [child.value], needs))
    case _ => LeafPort(reg, t, key, d, nullable, needs)
  }

  function ArgFields(reg: Registry, fields: seq<Field>): Option<seq<Port>>
    decreases fields
  {
    if fields == [] then Some([])
    else
      var n, f := |fields| - 1, fields[|fields| - 1];
      var front, last := ArgFields(reg, fields[..n]), ToArg(reg, f.t, f.name, f.default, false, []);
      if front.None? || last.None? then None else Some(front.value + [last.value])
  }

  function ArgVariants(reg: Registry, vs: seq<Type>): Option<seq<Port>>
    decreases vs
  {
    if vs == [] then Some([])
    else
      var n := |vs| - 1;
      var front, last := ArgVariants(reg, vs[..n]), ToArg(reg, vs[n], IndexToken(n), NoDefault, false, []);
      if front.None? || last.None? then None else Some(front.value + [last.value])
  }

  /** The same for return ports, which keep what they provide on models too. */
  function ToReturn(reg: Registry, t: Type, key: string, d: Default, nullable: bool, gives: seq<string>): Option<Port>
    decreases t
  {
    match t
    case UnionT(vs, optional) =>
      if optional && |vs| == 1 then ToReturn(reg, vs[0], key, d, true, [])
      else
        var children := ReturnVariants(reg, vs);
        if |vs| < 2 || children.None? then None
        else Some(Port(key, UNION, optional || nullable, None, children.value, if optional then [] else gives))
    case ModelT(identifier, fields) =>
      var children := ReturnFields(reg, fields);
      if children.None? then None else Some(Port(key, MODEL, nullable, Some(identifier), children.value, gives))
    case AnnotatedT(inner, default, more) =>
      if TwoDefaults(default, d) then None else ToReturn(reg, inner, key, Merged(default, d), nullable, gives + more)
    case ListT(item) =>
      var child := ToReturn(reg, item, "...", NoDefault, false, []);
      if child.None? then None else Some(Port(key, LIST, nullable, None, [child.value], gives))
    case DictT(item) =>
      var child := ToReturn(reg, item, "...", NoDefault, false, []);
      if child.None? then None else Some(Port(key, DICT, nullable, None, [child.value], gives))
    case _ => LeafPort(reg, t, key, d, nullable, gives)
  }

  function ReturnFields(reg: Registry, fields: seq<Field>): Option<seq<Port>>
    decreases fields
  {
    if fields == [] then Some([])
    else
      var n, f := |fields| - 1, fields[|fields| - 1];
      var front, last := ReturnFields(reg, fields[..n]), ToReturn(reg, f.t, f.name, f.default, false, []);
      if front.None? || last.None? then None else Some(front.value + [last.value])
  }

  function ReturnVariants(reg: Registry, vs: seq<Type>): Option<seq<Port>>
    decreases vs
  {
    if vs == [] then Some([])
    else
      var n := |vs| - 1;
      var front, last := ReturnVariants(reg, vs[..n]), ToReturn(reg, vs[n], IndexToken(n), NoDefault, false, []);
      if front.None? || last.None? then None else Some(front.value + [last.value])
  }

  /** One child that cannot be compiled spoils them all. */
  lemma {:induction false} ArgFieldFails(reg: Registry, xs: seq<Field>, n: nat)
    requires n <= |xs| && ArgFields(reg, xs[..n]).None?
    ensures ArgFields(reg, xs).None?
  {
    if n < |xs| {
      assert xs[..|xs| - 1][..n] == xs[..n];
      ArgFieldFails(reg, xs[..|xs| - 1], n);
    } else {
      assert xs[..n] == xs;
    }
  }

  /** One child that cannot be compiled spoils them all. */
  lemma {:induction false} ArgVariantFails(reg: Registry, xs: seq<Type>, n: nat)
    requires n <= |xs| && ArgVariants(reg, xs[..n]).None?
    ensures ArgVariants(reg, xs).None?
  {
    if n < |xs| {
      assert xs[..|xs| - 1][..n] == xs[..n];
      ArgVariantFails(reg, xs[..|xs| - 1], n);
    } else {
      assert xs[..n] == xs;
    }
  }

  /** `convert_object_to_argport`. */
  method ConvertObjectToArgPort(reg: Registry, t: Type, key: string, d: Default, nullable: bool, needs: seq<string>)
    returns (p: Option<Port>)
    ensures p == ToArg(reg, t, key, d, nullable, needs)
    decreases t
  {
    p := None;
    match t
    case UnionT(vs, optional) =>
      if optional && |vs| == 1 {
        p := ConvertObjectToArgPort(reg, vs[0], key, d, true, []);
      } else {
        var children := ConvertArgVariants(reg, vs);
        if children.None? {
          return None;
        }
        if |vs| >= 2 {
          p := Some(Port(key, UNION, optional || nullable, None, children.value, if optional then [] else needs));
        }
      }
    case ModelT(identifier, fields) =>
      var children := ConvertArgFields(reg, fields);
      if children.None? {
        return None;
      }
      p := Some(Port(key, MODEL, nullable, Some(identifier), children.value, []));
    case AnnotatedT(inner, default, more) =>
      if !TwoDefaults(default, d) {
        p := ConvertObjectToArgPort(reg, inner, key, Merged(default, d), nullable, needs + more);
      }
    case ListT(item) =>
      var child := ConvertObjectToArgPort(reg, item, "...", NoDefault, false, []);
      if child.Some? {
        p := Some(Port(key, LIST, nullable, None, [child.value], needs));
      }
    case DictT(item) =>
      var child := ConvertObjectToArgPort(reg, item, "...", NoDefault, false, []);
      if child.Some? {
        p := Some(Port(key, DICT, nullable, None, [child.value], needs));
      }
    case _ =>
      p := LeafPort(reg, t, key, d, nullable, needs);
  }

  method ConvertArgFields(reg: Registry, fields: seq<Field>) returns (ps: Option<seq<Port>>)
    ensures ps == ArgFields(reg, fields)
    decreases fields
  {
    var children: seq<Port> := [];
    for k := 0 to |fields|
      invariant ArgFields(reg, fields[..k]) == Some(children)
    {
      assert fields[..k + 1][..k] == fields[..k];
      var f := fields[k];
      var child := ConvertObjectToArgPort(reg, f.t, f.name, f.default, false, []);
      if child.None? {
        ArgFieldFails(reg, fields, k + 1);
        return None;
      }
      children := children + [child.value];
    }
    assert fields[..|fields|] == fields;
    return Some(children);
  }

  method ConvertArgVariants(reg: Registry, vs: seq<Type>) returns (ps: Option<seq<Port>>)
    ensures ps == ArgVariants(reg, vs)
    decreases vs
  {
    var children: seq<Port> := [];
    for index := 0 to |vs|
      invariant ArgVariants(reg, vs[..index]) == Some(children)
    {
      assert vs[..index + 1][..index] == vs[..index];
      var child := ConvertObjectToArgPort(reg, vs[index], IndexToken(index), NoDefault, false, []);
      if child.None? {
        ArgVariantFails(reg, vs, index + 1);
        return None;
      }
      children := children + [child.value];
    }
    assert vs[..|vs|] == vs;
    return Some(children);
  }

  /** One child that cannot be compiled spoils them all. */
  lemma {:induction false} ReturnFieldFails(reg: Registry, xs: seq<Field>, n: nat)
    requires n <= |xs| && ReturnFields(reg, xs[..n]).None?
    ensures ReturnFields(reg, xs).None?
  {
    if n < |xs| {
      assert xs[..|xs| - 1][..n] == xs[..n];
      ReturnFieldFails(reg, xs[..|xs| - 1], n);
    } else {
      assert xs[..n] == xs;
    }
  }

  /** One child that cannot be compiled spoils them all. */
  lemma {:induction false} ReturnVariantFails(reg: Registry, xs: seq<Type>, n: nat)
    requires n <= |xs| && ReturnVariants(reg, xs[..n]).None?
    ensures ReturnVariants(reg, xs).None?
  {
    if n < |xs| {
      assert xs[..|xs| - 1][..n] == xs[..n];
      ReturnVariantFails(reg, xs[..|xs| - 1], n);
    } else {
      assert xs[..n] == xs;
    }
  }

  /** `convert_object_to_returnport`. */
  method ConvertObjectToReturnPort(reg: Registry, t: Type, key: string, d: Default, nullable: bool, gives: seq<string>)
    returns (p: Option<Port>)
    ensures p == ToReturn(reg, t, key, d, nullable, gives)
    decreases t
  {
    p := None;
    match t
    case UnionT(vs, optional) =>
      if optional && |vs| == 1 {
        p := ConvertObjectToReturnPort(reg, vs[0], key, d, true, []);
      } else {
        var children := ConvertReturnVariants(reg, vs);
        if children.None? {
          return None;
        }
        if |vs| >= 2 {
          p := Some(Port(key, UNION, optional || nullable, None, children.value, if optional then [] else gives));
        }
      }
    case ModelT(identifier, fields) =>
      var children := ConvertReturnFields(reg, fields);
      if children.None? {
        return None;
      }
      p := Some(Port(key, MODEL, nullable, Some(identifier), children.value, gives));
    case AnnotatedT(inner, default, more) =>
      if !TwoDefaults(default, d) {
        p := ConvertObjectToReturnPort(reg, inner, key, Merged(default, d), nullable, gives + more);
      }
    case ListT(item) =>
      var child := ConvertObjectToReturnPort(reg, item, "...", NoDefault, false, []);
      if child.Some? {
        p := Some(Port(key, LIST, nullable, None, [child.value], gives));
      }
    case DictT(item) =>
      var child := ConvertObjectToReturnPort(reg, item, "...", NoDefault, false, []);
      if child.Some? {
        p := Some(Port(key, DICT, nullable, None, [child.value], gives));
      }
    case _ =>
      p := LeafPort(reg, t, key, d, nullable, gives);
  }

  method ConvertReturnFields(reg: Registry, fields: seq<Field>) returns (ps: Option<seq<Port>>)
    ensures ps == ReturnFields(reg, fields)
    decreases fields
  {
    var children: seq<Port> := [];
    for k := 0 to |fields|
      invariant ReturnFields(reg, fields[..k]) == Some(children)
    {
      assert fields[..k + 1][..k] == fields[..k];
      var f := fields[k];
      var child := ConvertObjectToReturnPort(reg, f.t, f.name, f.default, false, []);
      if child.None? {
        ReturnFieldFails(reg, fields, k + 1);
        return None;
      }
      children := children + [child.value];
    }
    assert fields[..|fields|] == fields;
    return Some(children);
  }

  method ConvertReturnVariants(reg: Registry, vs: seq<Type>) returns (ps: Option<seq<Port>>)
    ensures ps == ReturnVariants(reg, vs)
    decreases vs
  {
    var children: seq<Port> := [];
    for index := 0 to |vs|
      invariant ReturnVariants(reg, vs[..index]) == Some(children)
    {
      assert vs[..index + 1][..index] == vs[..index];
      var child := ConvertObjectToReturnPort(reg, vs[index], IndexToken(index), NoDefault, false, []);
      if child.None? {
        ReturnVariantFails(reg, vs, index + 1);
        return None;
      }
      children := children + [child.value];
    }
    assert vs[..|vs|] == vs;
    return Some(children);
  }

  // ---------------------------------------------------------------- match trees

  /** Fields that a hand-written match leaves open are `None`; no children and an empty tuple of them are the same. */
  datatype PortMatch = PortMatch(at: Option<nat>, key: Option<string>, kind: Option<Kind>, identifier: Option<string>,
                                 nullable: Option<bool>, children: seq<PortMatch>)

  function BuildPortMatch(index: nat, p: Port): PortMatch
    decreases p
  {
    PortMatch(Some(index), Some(p.key), Some(p.kind), p.identifier, Some(p.nullable), BuildPortMatches(p.children))
  }

  function BuildPortMatches(ps: seq<Port>): (ms: seq<PortMatch>)
    decreases ps
  {
    seq(|ps|, i requires 0 <= i < |ps| => BuildPortMatch(i, ps[i]))
  }

  /** The same ports, but for what they require or provide. */
  predicate AlikePorts(p: Port, q: Port)
    decreases p
  {
    && p.key == q.key && p.kind == q.kind && p.nullable == q.nullable && p.identifier == q.identifier
    && |p.children| == |q.children| && forall i :: 0 <= i < |p.children| ==> AlikePorts(p.children[i], q.children[i])
  }

  /** A match tree tells everything of its port but what it requires or provides, and nothing more. */
  lemma {:induction false} MatchDetermines(index: nat, p: Port, other: nat, q: Port)
    ensures BuildPortMatch(index, p) == BuildPortMatch(other, q) <==> index == other && AlikePorts(p, q)
    decreases p
  {
    if |p.children| == |q.children| {
      var ms, ns := BuildPortMatches(p.children), BuildPortMatches(q.children);
      forall i | 0 <= i < |p.children| ensures ms[i] == ns[i] <==> AlikePorts(p.children[i], q.children[i]) {
        MatchDetermines(i, p.children[i], i, q.children[i]);
      }
      assert ms == ns <==> forall i :: 0 <= i < |p.children| ==> AlikePorts(p.children[i], q.children[i]);
    } else {
      assert |BuildPortMatches(p.children)| == |p.children| && |BuildPortMatches(q.children)| == |q.children|;
    }
  }

  // ---------------------------------------------------------------- annotations

  datatype Annotation = Annotation(default: Default, constraints: seq<string>)

  /** A type under any number of annotations, the first outermost. */
  function Annotated(t: Type, more: seq<Annotation>): Type {
    if more == [] then t else AnnotatedT(Annotated(t, more[1..]), more[0].default, more[0].constraints)
  }

  function AllConstraints(more: seq<Annotation>): seq<string> {
    if more == [] then [] else more[0].constraints + AllConstraints(more[1..])
  }

  /** The defaults that are given, with the parameter's own first. */
  function GivenDefaults(own: Default, more: seq<Annotation>): seq<Default>
    decreases |more|
  {
    (if own.NoDefault? then [] else [own]) +
    if more == [] then [] else GivenDefaults(more[0].default, more[1..])
  }

  /** Two given defaults are an error, wherever they stand; a single one counts for the type inside, and the
      constraints add up from the outside to the inside. */
  lemma {:induction false} AnnotationsAddUp(reg: Registry, t: Type, more: seq<Annotation>, key: string, d: Default,
                                            nullable: bool, needs: seq<string>)
    ensures var ds, all := GivenDefaults(d, more), needs + AllConstraints(more);
      ToArg(reg, Annotated(t, more), key, d, nullable, needs) ==
        if |ds| > 1 then None else ToArg(reg, t, key, if ds == [] then NoDefault else ds[0], nullable, all)
    decreases |more|
  {
    if more == [] {
      assert needs + AllConstraints(more) == needs;
    } else {
      var first, rest := more[0], more[1..];
      GivenOnce(d, first.default, rest);
      assert needs + AllConstraints(more) == (needs + first.constraints) + AllConstraints(rest);
      AnnotationsAddUp(reg, t, rest, key, Merged(first.default, d), nullable, needs + first.constraints);
    }
  }

  /** The same for return ports. */
  lemma {:induction false} ReturnAnnotationsAddUp(reg: Registry, t: Type, more: seq<Annotation>, key: string,
                                                  d: Default, nullable: bool, needs: seq<string>)
    ensures var ds, all := GivenDefaults(d, more), needs + AllConstraints(more);
      ToReturn(reg, Annotated(t, more), key, d, nullable, needs) ==
        if |ds| > 1 then None else ToReturn(reg, t, key, if ds == [] then NoDefault else ds[0], nullable, all)
    decreases |more|
  {
    if more == [] {
      assert needs + AllConstraints(more) == needs;
    } else {
      var first, rest := more[0], more[1..];
      GivenOnce(d, first.default, rest);
      assert needs + AllConstraints(more) == (needs + first.constraints) + AllConstraints(rest);
      ReturnAnnotationsAddUp(reg, t, rest, key, Merged(first.default, d), nullable, needs + first.constraints);
    }
  }

  lemma GivenOnce(own: Default, next: Default, rest: seq<Annotation>)
    ensures var all := (if own.NoDefault? then [] else [own]) + GivenDefaults(next, rest);
      if TwoDefaults(next, own) then |all| > 1 else all == GivenDefaults(Merged(next, own), rest)
  {
  }

  // ---------------------------------------------------------------- argument and return ports agree

  function MatchOf(p: Option<Port>): Option<PortMatch> {
    if p.None? then None else Some(BuildPortMatch(0, p.value))
  }

  function MatchesOf(ps: Option<seq<Port>>): Option<seq<PortMatch>> {
    if ps.None? then None else Some(BuildPortMatches(ps.value))
  }

  lemma MatchesAppend(front: seq<Port>, last: Port)
    ensures BuildPortMatches(front + [last]) == BuildPortMatches(front) + [BuildPortMatch(|front|, last)]
  {
  }

  /** Equal match trees at one index are equal at every index. */
  lemma MatchAnywhere(p: Port, q: Port, i: nat)
    requires BuildPortMatch(0, p) == BuildPortMatch(0, q)
    ensures BuildPortMatch(i, p) == BuildPortMatch(i, q)
  {
  }

  /** For every finite type the two compilers fail together, and otherwise their ports have the same key, kind,
      nullability, identifier and children all the way down, whatever each requires or provides. */
  lemma {:induction false} ArgAndReturnAgree(reg: Registry, t: Type, key: string, d: Default, nullable: bool,
                                             needs: seq<string>, gives: seq<string>)
    ensures MatchOf(ToArg(reg, t, key, d, nullable, needs)) == MatchOf(ToReturn(reg, t, key, d, nullable, gives))
    decreases t, 0
  {
    match t
    case UnionT(vs, optional) =>
      if optional && |vs| == 1 {
        ArgAndReturnAgree(reg, vs[0], key, d, true, [], []);
      } else {
        VariantsAgree(reg, vs);
      }
    case ModelT(_, fields) => FieldsAgree(reg, fields);
    case AnnotatedT(inner, default, more) =>
      if !TwoDefaults(default, d) {
        ArgAndReturnAgree(reg, inner, key, Merged(default, d), nullable, needs + more, gives + more);
      }
    case ListT(item) => ItemsAgree(reg, item);
    case DictT(item) => ItemsAgree(reg, item);
    case _ => LeavesAgree(reg, t, key, d, nullable, needs, gives);
  }

  lemma LeavesAgree(reg: Registry, t: Type, key: string, d: Default, nullable: bool, needs: seq<string>,
                    gives: seq<string>)
    ensures MatchOf(LeafPort(reg, t, key, d, nullable, needs)) == MatchOf(LeafPort(reg, t, key, d, nullable, gives))
  {
  }

  lemma {:induction false} ItemsAgree(reg: Registry, item: Type)
    ensures var a, r := ToArg(reg, item, "...", NoDefault, false, []), ToReturn(reg, item, "...", NoDefault, false, []);
      && a.None? == r.None?
      && (a.Some? ==> BuildPortMatches([a.value]) == BuildPortMatches([r.value]))
    decreases item, 1
  {
    ArgAndReturnAgree(reg, item, "...", NoDefault, false, [], []);
  }

  lemma {:induction false} FieldsAgree(reg: Registry, fields: seq<Field>)
    ensures MatchesOf(ArgFields(reg, fields)) == MatchesOf(ReturnFields(reg, fields))
    decreases fields
  {
    if fields != [] {
      var n, f := |fields| - 1, fields[|fields| - 1];
      FieldsAgree(reg, fields[..n]);
      ArgAndReturnAgree(reg, f.t, f.name, f.default, false, [], []);
      AppendAgree(ArgFields(reg, fields[..n]), ToArg(reg, f.t, f.name, f.default, false, []),
        ReturnFields(reg, fields[..n]), ToReturn(reg, f.t, f.name, f.default, false, []));
    }
  }

  lemma {:induction false} VariantsAgree(reg: Registry, vs: seq<Type>)
    ensures MatchesOf(ArgVariants(reg, vs)) == MatchesOf(ReturnVariants(reg, vs))
    decreases vs
  {
    if vs != [] {
      var n := |vs| - 1;
      VariantsAgree(reg, vs[..n]);
      ArgAndReturnAgree(reg, vs[n], IndexToken(n), NoDefault, false, [], []);
      AppendAgree(ArgVariants(reg, vs[..n]), ToArg(reg, vs[n], IndexToken(n), NoDefault, false, []),
        ReturnVariants(reg, vs[..n]), ToReturn(reg, vs[n], IndexToken(n), NoDefault, false, []));
    }
  }

  lemma AppendAgree(front: Option<seq<Port>>, last: Option<Port>, front': Option<seq<Port>>, last': Option<Port>)
    requires MatchesOf(front) == MatchesOf(front') && MatchOf(last) == MatchOf(last')
    ensures front.Some? && last.Some? ==>
              && front'.Some? && last'.Some?
              && BuildPortMatches(front.value + [last.value]) == BuildPortMatches(front'.value + [last'.value])
    ensures front.None? || last.None? ==> front'.None? || last'.None?
  {
    if front.Some? && last.Some? {
      assert |BuildPortMatches(front.value)| == |BuildPortMatches(front'.value)|;
      MatchesAppend(front.value, last.value);
      MatchesAppend(front'.value, last'.value);
      MatchAnywhere(last.value, last'.value, |front.value|);
    }
  }

  // ---------------------------------------------------------------- the shape of a port

  lemma {:induction false} FieldPorts(reg: Registry, fields: seq<Field>)
    requires ArgFields(reg, fields).Some?
    ensures var ps := ArgFields(reg, fields).value;
      && |ps| == |fields|
      && forall i :: 0 <= i < |fields| ==>
           Some(ps[i]) == ToArg(reg, fields[i].t, fields[i].name, fields[i].default, false, [])
  {
    if fields != [] {
      FieldPorts(reg, fields[..|fields| - 1]);
    }
  }

  lemma {:induction false} VariantPorts(reg: Registry, vs: seq<Type>)
    requires ArgVariants(reg, vs).Some?
    ensures var ps := ArgVariants(reg, vs).value;
      && |ps| == |vs|
      && forall i :: 0 <= i < |vs| ==> Some(ps[i]) == ToArg(reg, vs[i], IndexToken(i), NoDefault, false, [])
  {
    if vs != [] {
      VariantPorts(reg, vs[..|vs| - 1]);
    }
  }

  /** A port keeps the key it is compiled for; a list or dict port has exactly one child, keyed "..."; the children
      of a union are keyed 0, 1, 2, ... in order, and there are at least two. */
  lemma {:induction false} PortShape(reg: Registry, t: Type, key: string, d: Default, nullable: bool,
                                     needs: seq<string>)
    requires ToArg(reg, t, key, d, nullable, needs).Some?
    requires forall cls :: cls in reg ==> reg[cls].kind in {MODEL, ENUM, STRUCTURE, MEMORY_STRUCTURE}
    ensures var p := ToArg(reg, t, key, d, nullable, needs).value;
      && p.key == key
      && (p.kind in {LIST, DICT} ==> |p.children| == 1 && p.children[0].key == "...")
      && (p.kind == UNION ==>
            |p.children| > 1 && forall i :: 0 <= i < |p.children| ==> p.children[i].key == IndexToken(i))
      && (p.kind !in {LIST, DICT, UNION, MODEL} ==> p.children == [])
    decreases t
  {
    match t
    case UnionT(vs, optional) =>
      if optional && |vs| == 1 {
        PortShape(reg, vs[0], key, d, true, []);
      } else {
        VariantPorts(reg, vs);
        forall i | 0 <= i < |vs| ensures ArgVariants(reg, vs).value[i].key == IndexToken(i) {
          KeyKept(reg, vs[i], IndexToken(i), NoDefault, false, []);
        }
      }
    case AnnotatedT(inner, default, more) => PortShape(reg, inner, key, Merged(default, d), nullable, needs + more);
    case ListT(item) => KeyKept(reg, item, "...", NoDefault, false, []);
    case DictT(item) => KeyKept(reg, item, "...", NoDefault, false, []);
    case _ =>
  }

  lemma {:induction false} KeyKept(reg: Registry, t: Type, key: string, d: Default, nullable: bool, needs: seq<string>)
    requires ToArg(reg, t, key, d, nullable, needs).Some?
    ensures ToArg(reg, t, key, d, nullable, needs).value.key == key
    decreases t
  {
    match t
    case UnionT(vs, optional) =>
      if optional && |vs| == 1 {
        KeyKept(reg, vs[0], key, d, true, []);
      }
    case AnnotatedT(inner, default, more) => KeyKept(reg, inner, key, Merged(default, d), nullable, needs + more);
    case _ =>
  }

  /** The type is a union with None, under annotations or not. */
  predicate AllowsNone(t: Type) {
    match t
    case UnionT(_, optional) => optional
    case AnnotatedT(inner, _, _) => AllowsNone(inner)
    case _ => false
  }

  /** What is left of a type without its annotations, and without a union with None alone. */
  function Core(t: Type): Type
    decreases t
  {
    match t
    case UnionT(vs, optional) => if optional && |vs| == 1 then Core(vs[0]) else t
    case AnnotatedT(inner, _, _) => Core(inner)
    case _ => t
  }

  lemma {:induction false} NullableIff(reg: Registry, t: Type, key: string, d: Default, nullable: bool,
                                       needs: seq<string>)
    requires ToArg(reg, t, key, d, nullable, needs).Some?
    ensures ToArg(reg, t, key, d, nullable, needs).value.nullable <==> nullable || AllowsNone(t)
    decreases t
  {
    match t
    case UnionT(vs, optional) =>
      if optional && |vs| == 1 {
        NullableIff(reg, vs[0], key, d, true, []);
      }
    case AnnotatedT(inner, default, more) => NullableIff(reg, inner, key, Merged(default, d), nullable, needs + more);
    case _ =>
  }

  /** A type can be compiled: no literal and no class is unknown to the registry, but where a default stands for the
      class; no union has a single member, but for the one with None; and no default is given twice. */
  predicate Compiles(reg: Registry, t: Type, d: Default)
    decreases t
  {
    match t
    case LiteralT(cls) => cls in reg
    case StructureT(cls) => cls in reg || !(d.NoDefault? || d.OtherValue?)
    case ListT(item) => Compiles(reg, item, NoDefault)
    case DictT(item) => Compiles(reg, item, NoDefault)
    case ModelT(_, fields) => forall i :: 0 <= i < |fields| ==> Compiles(reg, fields[i].t, fields[i].default)
    case UnionT(vs, optional) =>
      if |vs| == 1 then optional && Compiles(reg, vs[0], d)
      else vs != [] && forall i :: 0 <= i < |vs| ==> Compiles(reg, vs[i], NoDefault)
    case AnnotatedT(inner, NoDefault, _) => Compiles(reg, inner, d)
    case AnnotatedT(inner, given, _) => d.NoDefault? && Compiles(reg, inner, given)
    case _ => true
  }

  lemma {:induction false} CompilesIff(reg: Registry, t: Type, key: string, d: Default, nullable: bool,
                                       needs: seq<string>)
    ensures ToArg(reg, t, key, d, nullable, needs).Some? <==> Compiles(reg, t, d)
    decreases t, 1
  {
    match t
    case UnionT(vs, optional) =>
      if optional && |vs| == 1 {
        CompilesIff(reg, vs[0], key, d, true, []);
      } else {
        VariantsCompile(reg, vs);
      }
    case ModelT(_, fields) => FieldsCompile(reg, fields);
    case AnnotatedT(inner, default, more) => CompilesIff(reg, inner, key, Merged(default, d), nullable, needs + more);
    case ListT(item) => CompilesIff(reg, item, "...", NoDefault, false, []);
    case DictT(item) => CompilesIff(reg, item, "...", NoDefault, false, []);
    case _ =>
  }

  lemma {:induction false} VariantsCompile(reg: Registry, vs: seq<Type>)
    ensures ArgVariants(reg, vs).Some? <==> forall i :: 0 <= i < |vs| ==> Compiles(reg, vs[i], NoDefault)
    decreases vs
  {
    if vs != [] {
      var n := |vs| - 1;
      VariantsCompile(reg, vs[..n]);
      CompilesIff(reg, vs[n], IndexToken(n), NoDefault, false, []);
      assert forall i :: 0 <= i < n ==> vs[..n][i] == vs[i];
    }
  }

  lemma {:induction false} FieldsCompile(reg: Registry, fields: seq<Field>)
    ensures ArgFields(reg, fields).Some? <==>
              forall i :: 0 <= i < |fields| ==> Compiles(reg, fields[i].t, fields[i].default)
    decreases fields
  {
    if fields != [] {
      var n := |fields| - 1;
      FieldsCompile(reg, fields[..n]);
      CompilesIff(reg, fields[n].t, fields[n].name, fields[n].default, false, []);
      assert forall i :: 0 <= i < n ==> fields[..n][i] == fields[i];
    }
  }

  lemma VariantsAllow(reg: Registry, vs: seq<Type>)
    requires ArgVariants(reg, vs).Some?
    ensures AreNullable(ArgVariants(reg, vs).value, seq(|vs|, i requires 0 <= i < |vs| => AllowsNone(vs[i])))
  {
    VariantPorts(reg, vs);
    forall i | 0 <= i < |vs| ensures ArgVariants(reg, vs).value[i].nullable <==> AllowsNone(vs[i]) {
      NullableIff(reg, vs[i], IndexToken(i), NoDefault, false, []);
    }
  }

  lemma FieldsAllow(reg: Registry, fields: seq<Field>)
    requires ArgFields(reg, fields).Some?
    ensures var ps := ArgFields(reg, fields).value;
      && AreNullable(ps, seq(|fields|, i requires 0 <= i < |fields| => AllowsNone(fields[i].t)))
      && forall i :: 0 <= i < |fields| ==> ps[i].key == fields[i].name
  {
    FieldPorts(reg, fields);
    forall i | 0 <= i < |fields|
      ensures ArgFields(reg, fields).value[i].key == fields[i].name
      ensures ArgFields(reg, fields).value[i].nullable <==> AllowsNone(fields[i].t)
    {
      KeyKept(reg, fields[i].t, fields[i].name, fields[i].default, false, []);
      NullableIff(reg, fields[i].t, fields[i].name, fields[i].default, false, []);
    }
  }

  /** As many ports, nullable or not in this order. */
  predicate AreNullable(ps: seq<Port>, nullable: seq<bool>) {
    |ps| == |nullable| && forall i :: 0 <= i < |nullable| ==> ps[i].nullable == nullable[i]
  }

  /** What a type is compiled to, whatever annotations and union with None are around it: its kind, its identifier, and
      a child for its items, variants or fields, in order; each port is nullable exactly if its own type allows None or
      it was asked for. */
  lemma {:induction false} CompiledAs(reg: Registry, t: Type, key: string, d: Default, nullable: bool,
                                      needs: seq<string>)
    requires ToArg(reg, t, key, d, nullable, needs).Some?
    ensures var p := ToArg(reg, t, key, d, nullable, needs).value;
      && (p.nullable <==> nullable || AllowsNone(t))
      && match Core(t)
         case ListT(item) => p.kind == LIST && p.identifier == None && AreNullable(p.children, [AllowsNone(item)])
         case DictT(item) => p.kind == DICT && p.identifier == None && AreNullable(p.children, [AllowsNone(item)])
         case UnionT(vs, _) =>
           && p.kind == UNION && p.identifier == None
           && AreNullable(p.children, seq(|vs|, i requires 0 <= i < |vs| => AllowsNone(vs[i])))
         case ModelT(identifier, fields) =>
           && p.kind == MODEL && p.identifier == Some(identifier)
           && AreNullable(p.children, seq(|fields|, i requires 0 <= i < |fields| => AllowsNone(fields[i].t)))
           && forall i :: 0 <= i < |fields| ==> p.children[i].key == fields[i].name
         case _ => p.children == []
    decreases t
  {
    NullableIff(reg, t, key, d, nullable, needs);
    match t
    case UnionT(vs, optional) =>
      if optional && |vs| == 1 {
        CompiledAs(reg, vs[0], key, d, true, []);
      } else {
        VariantsAllow(reg, vs);
      }
    case AnnotatedT(inner, default, more) => CompiledAs(reg, inner, key, Merged(default, d), nullable, needs + more);
    case ListT(item) => NullableIff(reg, item, "...", NoDefault, false, []);
    case DictT(item) => NullableIff(reg, item, "...", NoDefault, false, []);
    case ModelT(_, fields) => FieldsAllow(reg, fields);
    case _ =>
  }

  /** And so are return ports, which equal argument ports but for what they require or provide. */
  lemma ReturnIsAlike(reg: Registry, t: Type, key: string, d: Default, nullable: bool, needs: seq<string>,
                      gives: seq<string>)
    ensures var p, q := ToArg(reg, t, key, d, nullable, needs), ToReturn(reg, t, key, d, nullable, gives);
      p.Some? == q.Some? && (p.Some? ==> AlikePorts(p.value, q.value))
  {
    ArgAndReturnAgree(reg, t, key, d, nullable, needs, gives);
    var p, q := ToArg(reg, t, key, d, nullable, needs), ToReturn(reg, t, key, d, nullable, gives);
    if p.Some? {
      MatchDetermines(0, p.value, 0, q.value);
    }
  }

  /** Whether the requirements that a type is compiled with are lost. */
  predicate DropsNeeds(t: Type) {
    match t
    case UnionT(_, optional) => optional
    case ModelT(_, _) => true
    case AnnotatedT(inner, _, _) => DropsNeeds(inner)
    case _ => false
  }

  /** Being nullable changes nothing else. */
  lemma {:induction false} NullableOf(reg: Registry, t: Type, key: string, d: Default, nullable: bool,
                                      needs: seq<string>)
    ensures var p, q := ToArg(reg, t, key, d, nullable, needs), ToArg(reg, t, key, d, true, needs);
      && p.Some? == q.Some?
      && (p.Some? ==> q.value.nullable && q.value == p.value.(nullable := true))
    decreases t
  {
    match t
    case UnionT(vs, optional) =>
      if optional && |vs| == 1 {
        NullableOf(reg, vs[0], key, d, true, []);
      }
    case AnnotatedT(inner, default, more) => NullableOf(reg, inner, key, Merged(default, d), nullable, needs + more);
    case _ =>
  }

  /** The two begin with what was given and go on alike. */
  predicate SameTail(a: seq<string>, given: seq<string>, b: seq<string>, given': seq<string>) {
    given <= a && given' <= b && a[|given|..] == b[|given'|..]
  }

  lemma SameTailBefore(a: seq<string>, x: seq<string>, b: seq<string>, y: seq<string>, more: seq<string>)
    requires SameTail(a, x + more, b, y + more)
    ensures SameTail(a, x, b, y)
  {
    assert a == x + more + a[|x| + |more|..] && b == y + more + b[|y| + |more|..];
    assert a[|x|..] == more + a[|x| + |more|..] && b[|y|..] == more + b[|y| + |more|..];
  }

  predicate SameButNeeds(t: Type, p: Option<Port>, needs: seq<string>, q: Option<Port>, needs': seq<string>) {
    && p.Some? == q.Some?
    && (p.Some? ==>
          && p.value.(constraints := []) == q.value.(constraints := [])
          && if DropsNeeds(t) then p.value == q.value
             else SameTail(p.value.constraints, needs, q.value.constraints, needs'))
  }

  /** The requirements of an argument port begin with those given, unless they are lost. */
  lemma {:induction false} NeedsOf(reg: Registry, t: Type, key: string, d: Default, nullable: bool,
                                   needs: seq<string>, needs': seq<string>)
    ensures SameButNeeds(t, ToArg(reg, t, key, d, nullable, needs), needs,
                         ToArg(reg, t, key, d, nullable, needs'), needs')
    decreases t
  {
    if t.AnnotatedT? {
      if !TwoDefaults(t.default, d) {
        var more, d' := t.constraints, Merged(t.default, d);
        NeedsOf(reg, t.inner, key, d', nullable, needs + more, needs' + more);
        var p := ToArg(reg, t.inner, key, d', nullable, needs + more);
        var q := ToArg(reg, t.inner, key, d', nullable, needs' + more);
        if p.Some? && !DropsNeeds(t) {
          SameTailBefore(p.value.constraints, needs, q.value.constraints, needs', more);
        }
      }
    } else {
      PlainNeeds(reg, t, key, d, nullable, needs, needs');
    }
  }

  lemma PlainNeeds(reg: Registry, t: Type, key: string, d: Default, nullable: bool,
                   needs: seq<string>, needs': seq<string>)
    requires !t.AnnotatedT?
    ensures SameButNeeds(t, ToArg(reg, t, key, d, nullable, needs), needs,
                         ToArg(reg, t, key, d, nullable, needs'), needs')
  {
    match t
    case UnionT(vs, optional) => UnionNeeds(reg, vs, optional, key, d, nullable, needs, needs');
    case ModelT(_, _) =>
    case ListT(_) =>
    case DictT(_) =>
    case _ => LeafNeeds(reg, t, key, d, nullable, needs, needs');
  }

  lemma UnionNeeds(reg: Registry, vs: seq<Type>, optional: bool, key: string, d: Default, nullable: bool,
                   needs: seq<string>, needs': seq<string>)
    ensures var t := UnionT(vs, optional);
      SameButNeeds(t, ToArg(reg, t, key, d, nullable, needs), needs, ToArg(reg, t, key, d, nullable, needs'), needs')
  {
  }

  lemma LeafNeeds(reg: Registry, t: Type, key: string, d: Default, nullable: bool,
                  needs: seq<string>, needs': seq<string>)
    ensures !DropsNeeds(t) ==>
              SameButNeeds(t, LeafPort(reg, t, key, d, nullable, needs), needs,
                           LeafPort(reg, t, key, d, nullable, needs'), needs')
  {
  }

  /** `Optional[T]` compiles as T with nullable set, except that requirements given from outside are lost: so the two
      agree exactly when there are none, or T loses them too. */
  lemma OptionalIsNullableIff(reg: Registry, t: Type, key: string, d: Default, nullable: bool, needs: seq<string>)
    requires ToArg(reg, t, key, d, nullable, needs).Some?
    ensures var opt := ToArg(reg, UnionT([t], true), key, d, nullable, needs);
      && opt.Some? && opt.value.nullable
      && (opt.value == ToArg(reg, t, key, d, nullable, needs).value.(nullable := true) <==>
            needs == [] || DropsNeeds(t))
  {
    NullableOf(reg, t, key, d, nullable, needs);
    NeedsOf(reg, t, key, d, true, [], needs);
    if !DropsNeeds(t) && needs != [] {
      var p, q := ToArg(reg, t, key, d, true, []).value, ToArg(reg, t, key, d, true, needs).value;
      assert |q.constraints| == |p.constraints| + |needs|;
    }
  }

  /** Whether what a type provides is lost. */
  predicate DropsGives(t: Type) {
    match t
    case UnionT(_, optional) => optional
    case AnnotatedT(inner, _, _) => DropsGives(inner)
    case _ => false
  }

  /** Being nullable changes nothing else of a return port either. */
  lemma {:induction false} NullableReturn(reg: Registry, t: Type, key: string, d: Default, nullable: bool,
                                          gives: seq<string>)
    ensures var p, q := ToReturn(reg, t, key, d, nullable, gives), ToReturn(reg, t, key, d, true, gives);
      && p.Some? == q.Some?
      && (p.Some? ==> q.value.nullable && q.value == p.value.(nullable := true))
    decreases t
  {
    match t
    case UnionT(vs, optional) =>
      if optional && |vs| == 1 {
        NullableReturn(reg, vs[0], key, d, true, []);
      }
    case AnnotatedT(inner, default, more) =>
      NullableReturn(reg, inner, key, Merged(default, d), nullable, gives + more);
    case _ =>
  }

  predicate SameButGives(t: Type, p: Option<Port>, gives: seq<string>, q: Option<Port>, gives': seq<string>) {
    && p.Some? == q.Some?
    && (p.Some? ==>
          && p.value.(constraints := []) == q.value.(constraints := [])
          && if DropsGives(t) then p.value == q.value
             else SameTail(p.value.constraints, gives, q.value.constraints, gives'))
  }

  /** What a return port provides begins with what was given, unless it is lost. */
  lemma {:induction false} GivesOf(reg: Registry, t: Type, key: string, d: Default, nullable: bool,
                                   gives: seq<string>, gives': seq<string>)
    ensures SameButGives(t, ToReturn(reg, t, key, d, nullable, gives), gives,
                         ToReturn(reg, t, key, d, nullable, gives'), gives')
    decreases t
  {
    if t.AnnotatedT? {
      if !TwoDefaults(t.default, d) {
        var more, d' := t.constraints, Merged(t.default, d);
        GivesOf(reg, t.inner, key, d', nullable, gives + more, gives' + more);
        var p := ToReturn(reg, t.inner, key, d', nullable, gives + more);
        var q := ToReturn(reg, t.inner, key, d', nullable, gives' + more);
        if p.Some? && !DropsGives(t) {
          SameTailBefore(p.value.constraints, gives, q.value.constraints, gives', more);
        }
      }
    } else {
      PlainGives(reg, t, key, d, nullable, gives, gives');
    }
  }

  lemma PlainGives(reg: Registry, t: Type, key: string, d: Default, nullable: bool,
                   gives: seq<string>, gives': seq<string>)
    requires !t.AnnotatedT?
    ensures SameButGives(t, ToReturn(reg, t, key, d, nullable, gives), gives,
                         ToReturn(reg, t, key, d, nullable, gives'), gives')
  {
    match t
    case UnionT(vs, optional) => UnionGives(reg, vs, optional, key, d, nullable, gives, gives');
    case ModelT(_, _) =>
    case ListT(_) =>
    case DictT(_) =>
    case _ => LeafGives(reg, t, key, d, nullable, gives, gives');
  }

  lemma UnionGives(reg: Registry, vs: seq<Type>, optional: bool, key: string, d: Default, nullable: bool,
                   gives: seq<string>, gives': seq<string>)
    ensures var t := UnionT(vs, optional);
      SameButGives(t, ToReturn(reg, t, key, d, nullable, gives), gives,
                   ToReturn(reg, t, key, d, nullable, gives'), gives')
  {
  }

  lemma LeafGives(reg: Registry, t: Type, key: string, d: Default, nullable: bool,
                  gives: seq<string>, gives': seq<string>)
    ensures !DropsGives(t) ==>
              SameButGives(t, LeafPort(reg, t, key, d, nullable, gives), gives,
                           LeafPort(reg, t, key, d, nullable, gives'), gives')
  {
  }

  /** For return ports the same, but a model keeps what it provides: `Optional[T]` is T with nullable set exactly when
      nothing is provided from outside, or T is an `Optional` itself. */
  lemma OptionalReturnIsNullableIff(reg: Registry, t: Type, key: string, d: Default, nullable: bool,
                                    gives: seq<string>)
    requires ToReturn(reg, t, key, d, nullable, gives).Some?
    ensures var opt := ToReturn(reg, UnionT([t], true), key, d, nullable, gives);
      && opt.Some? && opt.value.nullable
      && (opt.value == ToReturn(reg, t, key, d, nullable, gives).value.(nullable := true) <==>
            gives == [] || DropsGives(t))
  {
    NullableReturn(reg, t, key, d, nullable, gives);
    GivesOf(reg, t, key, d, true, [], gives);
    if !DropsGives(t) && gives != [] {
      var p, q := ToReturn(reg, t, key, d, true, []).value, ToReturn(reg, t, key, d, true, gives).value;
      assert |q.constraints| == |p.constraints| + |gives|;
    }
  }

  // ---------------------------------------------------------------- resolving a dotted path

  /** `MissingSchema` is a nested reference where nothing is known of the value; `Unknown` one that does not exist.
      Both carry the offending segment. A path may also resolve to no match at all. */
  datatype Resolved = Found(m: Option<PortMatch>) | MissingSchema(part: string) | Unknown(part: string)

  function Keys(ms: seq<PortMatch>): seq<Option<string>> {
    seq(|ms|, i requires 0 <= i < |ms| => ms[i].key)
  }

  function FirstIndex<T(==)>(xs: seq<T>, x: T): (i: nat)
    ensures i <= |xs| && x !in xs[..i] && (i < |xs| ==> xs[i] == x)
  {
    if xs == [] || xs[0] == x then 0 else 1 + FirstIndex(xs[1..], x)
  }

  /** The child that a segment names: the first with that key, or else the only one if its key is "...". */
  function ChildNamed(children: seq<PortMatch>, part: string): Option<PortMatch> {
    var i := FirstIndex(Keys(children), Some(part));
    if i < |children| then Some(children[i])
    else if |children| == 1 && children[0].key == Some("...") then Some(children[0])
    else None
  }

  function Resolve(m: Option<PortMatch>, parts: seq<string>): Resolved
    decreases parts
  {
    if parts == [] then Found(m)
    else if m.None? then MissingSchema(parts[0])
    else
      var child := ChildNamed(m.value.children, parts[0]);
      if child.None? then Unknown(parts[0]) else Resolve(child, parts[1..])
  }

  /** `_resolve_port_match_path`. */
  method ResolvePortMatchPath(m: Option<PortMatch>, parts: seq<string>) returns (r: Resolved)
    ensures r == Resolve(m, parts)
  {
    if m.None? {
      return if parts != [] then MissingSchema(parts[0]) else Found(None);
    }
    var current, remaining := m.value, parts;
    while remaining != []
      invariant Resolve(m, parts) == Resolve(Some(current), remaining)
      decreases |remaining|
    {
      var next := remaining[0];
      remaining := remaining[1..];
      var i := 0;
      while i < |current.children| && current.children[i].key != Some(next)
        invariant i <= FirstIndex(Keys(current.children), Some(next))
      {
        i := i + 1;
      }
      var child: Option<PortMatch> := None;
      if i < |current.children| {
        assert Keys(current.children)[i] == Some(next);
        child := Some(current.children[i]);
      } else if |current.children| == 1 && current.children[0].key == Some("...") {
        child := Some(current.children[0]);
      }
      if child.None? {
        return Unknown(next);
      }
      current := child.value;
    }
    return Found(Some(current));
  }

  // ---------------------------------------------------------------- legal access paths of a type

  /** A place in a value: its type, with the default and nullability its port is compiled with. */
  datatype Spot = Spot(t: Type, default: Default, nullable: bool)

  function Names(fields: seq<Field>): seq<string> {
    seq(|fields|, i requires 0 <= i < |fields| => fields[i].name)
  }

  /** What one segment reaches: a field by its name, any item of a list or dict, a variant of a union by its index. */
  function Access(t: Type, part: string): Option<Spot> {
    match t
    case AnnotatedT(inner, _, _) => Access(inner, part)
    case UnionT(vs, optional) =>
      if optional && |vs| == 1 then Access(vs[0], part)
      else (match ParseIndex(part)
            case Some(i) => if i < |vs| then Some(Spot(vs[i], NoDefault, false)) else None
            case None => None)
    case ModelT(_, fields) =>
      var i := FirstIndex(Names(fields), part);
      if i < |fields| then Some(Spot(fields[i].t, fields[i].default, false)) else None
    case ListT(item) => Some(Spot(item, NoDefault, false))
    case DictT(item) => Some(Spot(item, NoDefault, false))
    case _ => None
  }

  function AccessPath(s: Spot, parts: seq<string>): Option<Spot>
    decreases parts
  {
    if parts == [] then Some(s)
    else
      var next := Access(s.t, parts[0]);
      if next.None? then None else AccessPath(next.value, parts[1..])
  }

  /** No field is called "...": field names are identifiers. */
  ghost predicate Named(t: Type)
    decreases t
  {
    match t
    case AnnotatedT(inner, _, _) => Named(inner)
    case UnionT(vs, _) => forall i :: 0 <= i < |vs| ==> Named(vs[i])
    case ModelT(_, fields) => forall i :: 0 <= i < |fields| ==> fields[i].name != "..." && Named(fields[i].t)
    case ListT(item) => Named(item)
    case DictT(item) => Named(item)
    case _ => true
  }

  /** The match is the one of the type at that spot. */
  predicate MatchOfSpot(reg: Registry, m: PortMatch, s: Spot) {
    m.at.Some? && m.key.Some? &&
    var p := ToArg(reg, s.t, m.key.value, s.default, s.nullable, []);
    p.Some? && m == BuildPortMatch(m.at.value, p.value)
  }

  // ---------------------------------------------------------------- path preservation

  lemma {:induction false} FirstIndexIs<T>(xs: seq<T>, x: T, i: nat)
    requires i <= |xs| && (forall k :: 0 <= k < i ==> xs[k] != x) && (i < |xs| ==> xs[i] == x)
    ensures FirstIndex(xs, x) == i
  {
    if i > 0 {
      FirstIndexIs(xs[1..], x, i - 1);
    }
  }

  lemma KeysOfPorts(ps: seq<Port>, names: seq<string>, part: string)
    requires |ps| == |names| && forall i :: 0 <= i < |ps| ==> ps[i].key == names[i]
    ensures FirstIndex(Keys(BuildPortMatches(ps)), Some(part)) == FirstIndex(names, part)
  {
    var ms, j := BuildPortMatches(ps), FirstIndex(names, part);
    forall k | 0 <= k < j ensures Keys(ms)[k] != Some(part) {
      assert names[k] in names[..j];
    }
    FirstIndexIs(Keys(ms), Some(part), j);
  }

  lemma FieldNamed(reg: Registry, fields: seq<Field>, part: string)
    requires ArgFields(reg, fields).Some? && forall i :: 0 <= i < |fields| ==> fields[i].name != "..."
    ensures var child := ChildNamed(BuildPortMatches(ArgFields(reg, fields).value), part);
      var i := FirstIndex(Names(fields), part);
      && child.Some? == (i < |fields|)
      && (i < |fields| ==> MatchOfSpot(reg, child.value, Spot(fields[i].t, fields[i].default, false)))
  {
    var ps := ArgFields(reg, fields).value;
    FieldPorts(reg, fields);
    forall i | 0 <= i < |fields| ensures ps[i].key == Names(fields)[i] {
      KeyKept(reg, fields[i].t, fields[i].name, fields[i].default, false, []);
    }
    KeysOfPorts(ps, Names(fields), part);
  }

  function Indices(n: nat): seq<string> {
    seq(n, i requires 0 <= i => IndexToken(i))
  }

  lemma VariantNamed(reg: Registry, vs: seq<Type>, part: string)
    requires ArgVariants(reg, vs).Some? && |vs| > 1
    ensures var child, i := ChildNamed(BuildPortMatches(ArgVariants(reg, vs).value), part), ParseIndex(part);
      && child.Some? == (i.Some? && i.value < |vs|)
      && (child.Some? ==> MatchOfSpot(reg, child.value, Spot(vs[i.value], NoDefault, false)))
  {
    var ps := ArgVariants(reg, vs).value;
    VariantPorts(reg, vs);
    forall i | 0 <= i < |vs| ensures ps[i].key == Indices(|vs|)[i] {
      KeyKept(reg, vs[i], IndexToken(i), NoDefault, false, []);
    }
    KeysOfPorts(ps, Indices(|vs|), part);
    var i := ParseIndex(part);
    if i.Some? {
      ParsedIndexIsToken(part);
    }
    forall k | 0 <= k < |vs| && i != Some(k) ensures Indices(|vs|)[k] != part {
      IndexRoundTrip(k);
    }
    FirstIndexIs(Indices(|vs|), part, if i.Some? && i.value < |vs| then i.value else |vs|);
  }

  lemma ItemNamed(reg: Registry, item: Type, part: string)
    requires ToArg(reg, item, "...", NoDefault, false, []).Some?
    ensures var child := ChildNamed(BuildPortMatches([ToArg(reg, item, "...", NoDefault, false, []).value]), part);
      child.Some? && MatchOfSpot(reg, child.value, Spot(item, NoDefault, false))
  {
    KeyKept(reg, item, "...", NoDefault, false, []);
  }

  /** The segment finds a child exactly when it is legal at `t`, and the child is the match of what it reaches. */
  ghost predicate Preserves(reg: Registry, t: Type, children: seq<PortMatch>, part: string) {
    var child, spot := ChildNamed(children, part), Access(t, part);
    && child.Some? == spot.Some?
    && (spot.Some? ==> Named(spot.value.t) && MatchOfSpot(reg, child.value, spot.value))
  }

  lemma {:induction false} SegmentPreserved(reg: Registry, t: Type, key: string, d: Default, nullable: bool,
                                            needs: seq<string>, part: string)
    requires Named(t) && ToArg(reg, t, key, d, nullable, needs).Some?
    ensures Preserves(reg, t, BuildPortMatches(ToArg(reg, t, key, d, nullable, needs).value.children), part)
    decreases t
  {
    match t
    case AnnotatedT(inner, default, more) =>
      SegmentPreserved(reg, inner, key, Merged(default, d), nullable, needs + more, part);
    case UnionT(vs, optional) =>
      if optional && |vs| == 1 {
        SegmentPreserved(reg, vs[0], key, d, true, [], part);
      } else {
        VariantNamed(reg, vs, part);
      }
    case ModelT(_, fields) => FieldNamed(reg, fields, part);
    case ListT(item) => ItemNamed(reg, item, part);
    case DictT(item) => ItemNamed(reg, item, part);
    case _ => NothingInLeaf(reg, t, key, d, nullable, needs, part);
  }

  lemma NothingInLeaf(reg: Registry, t: Type, key: string, d: Default, nullable: bool, needs: seq<string>, part: string)
    requires LeafPort(reg, t, key, d, nullable, needs).Some?
    ensures ChildNamed(BuildPortMatches(LeafPort(reg, t, key, d, nullable, needs).value.children), part) == None
  {
  }

  /** A resolved path is a legal one, and has landed on the match of the type it reaches. */
  predicate LandsOn(reg: Registry, r: Resolved, spot: Option<Spot>) {
    if spot.Some? then r.Found? && r.m.Some? && MatchOfSpot(reg, r.m.value, spot.value) else r.Unknown?
  }

  lemma {:induction false} PathFrom(reg: Registry, m: PortMatch, s: Spot, parts: seq<string>)
    requires Named(s.t) && MatchOfSpot(reg, m, s)
    ensures LandsOn(reg, Resolve(Some(m), parts), AccessPath(s, parts))
    decreases parts
  {
    if parts != [] {
      SegmentPreserved(reg, s.t, m.key.value, s.default, s.nullable, [], parts[0]);
      if Access(s.t, parts[0]).Some? {
        PathFrom(reg, ChildNamed(m.children, parts[0]).value, Access(s.t, parts[0]).value, parts[1..]);
      }
    }
  }

  /** Over every finite type: a dotted tail resolves in the match tree of its argument port exactly when it is a
      legal access path of the type, and then lands on the match of the type it reaches. */
  lemma PathPreservedIff(reg: Registry, t: Type, key: string, d: Default, nullable: bool, needs: seq<string>, at: nat,
                         parts: seq<string>)
    requires Named(t) && ToArg(reg, t, key, d, nullable, needs).Some?
    ensures var p := ToArg(reg, t, key, d, nullable, needs).value;
      LandsOn(reg, Resolve(Some(BuildPortMatch(at, p)), parts), AccessPath(Spot(t, d, nullable), parts))
  {
    NeedsOf(reg, t, key, d, nullable, needs, []);
    var p := ToArg(reg, t, key, d, nullable, []).value;
    KeyKept(reg, t, key, d, nullable, []);
    PathFrom(reg, BuildPortMatch(at, p), Spot(t, d, nullable), parts);
  }

  /** Only the children of the root matter to a path that goes anywhere. */
  lemma RootsAgree(m: PortMatch, m': PortMatch, parts: seq<string>)
    requires m.children == m'.children && parts != []
    ensures Resolve(Some(m), parts) == Resolve(Some(m'), parts)
  {
  }

  /** The same for return ports, and below a root that only has the ports as children, as a demanded state has. */
  lemma StatePathPreservedIff(reg: Registry, fields: seq<Field>, root: PortMatch, parts: seq<string>)
    requires ReturnFields(reg, fields).Some? && root.children == BuildPortMatches(ReturnFields(reg, fields).value)
    requires Named(ModelT("", fields)) && parts != []
    ensures LandsOn(reg, Resolve(Some(root), parts), AccessPath(Spot(ModelT("", fields), NoDefault, false), parts))
  {
    FieldsAgree(reg, fields);
    RootsAgree(root, BuildPortMatch(0, ToArg(reg, ModelT("", fields), "", NoDefault, false, []).value), parts);
    PathPreservedIff(reg, ModelT("", fields), "", NoDefault, false, [], 0, parts);
  }
}
