/** Bloks: which dependencies a component tree needs (rekuest_next/blok/registry.py) and whether a tree fits given
    dependencies (`validate_blok`, rekuest_next/blok/parser.py). Two walks over the same tree, each with its own
    idea of the local values in scope. */
module Blok {
  import opened Prelude
  import opened KeyOrder
  import Ports

  type PortMatch = Ports.PortMatch

  /** A dotted path, already split: splitting never gives an empty list. */
  type Path = p: seq<string> | p != [] witness [""]

  /** A path, a nested agent or util call, a list and a dict; a literal has none of them. */
  datatype Argument = Argument(path: Option<Path>, call: Option<Call>, util: Option<UtilCall>,
                               items: seq<Argument>, entries: seq<Argument>)

  /** The operation is dotted too, and the action is its last part. */
  datatype Call = Call(dependency: string, operation: Path, args: seq<Argument>)

  datatype UtilCall = UtilCall(args: seq<Argument>)

  /** `declares` is empty if the prop declares nothing. */
  datatype Prop = Prop(key: string, declares: string, dynamic: Option<Path>, call: Option<Call>,
                       util: Option<UtilCall>)

  /** `foreach` tells whether that is the component's name, in any case. */
  datatype Node = Node(foreach: bool, props: seq<Prop>, children: seq<Node>)

  // ---------------------------------------------------------------- collecting references

  /** What a tree refers to: an action or a state of a dependency, or a state of whichever dependency there is. */
  datatype Ref =
    | ActionOf(dependency: string, key: string) | StateOf(dependency: string, key: string) | Unscoped(key: string)

  function PathRefs(path: Path, locals: set<string>): set<Ref> {
    if path[0] in locals || path[0] == "utils" then {}
    else if path[0] == "state" then
      if |path| >= 3 then {StateOf(path[1], path[2])} else if |path| == 2 then {Unscoped(path[1])} else {}
    else if |path| >= 2 then {StateOf(path[0], path[1])}
    else {}
  }

  function OptPathRefs(path: Option<Path>, locals: set<string>): set<Ref> {
    match path case Some(p) => PathRefs(p, locals) case None => {}
  }

  function ArgRefs(a: Argument, locals: set<string>): set<Ref>
    decreases a
  {
    var call := if a.call.Some? then CallRefs(a.call.value, locals) else {};
    var util := if a.util.Some? then ArgsRefs(a.util.value.args, locals) else {};
    OptPathRefs(a.path, locals) + call + util + ArgsRefs(a.items, locals) + ArgsRefs(a.entries, locals)
  }

  function ArgsRefs(args: seq<Argument>, locals: set<string>): set<Ref>
    decreases args
  {
    if args == [] then {} else ArgsRefs(args[..|args| - 1], locals) + ArgRefs(args[|args| - 1], locals)
  }

  function CallRefs(c: Call, locals: set<string>): set<Ref>
    decreases c
  {
    {ActionOf(c.dependency, c.operation[|c.operation| - 1])} + ArgsRefs(c.args, locals)
  }

  function PropRefs(p: Prop, locals: set<string>): set<Ref> {
    var call := if p.call.Some? then CallRefs(p.call.value, locals) else {};
    var util := if p.util.Some? then ArgsRefs(p.util.value.args, locals) else {};
    OptPathRefs(p.dynamic, locals) + call + util
  }

  function PropsRefs(ps: seq<Prop>, locals: set<string>): set<Ref> {
    if ps == [] then {} else PropsRefs(ps[..|ps| - 1], locals) + PropRefs(ps[|ps| - 1], locals)
  }

  /** The local values that a node adds for itself and everything below it. */
  function Declared(ps: seq<Prop>): set<string> {
    if ps == [] then {}
    else Declared(ps[..|ps| - 1]) + if ps[|ps| - 1].declares != "" then {ps[|ps| - 1].declares} else {}
  }

  function NodeRefs(n: Node, inherited: set<string>): set<Ref>
    decreases n
  {
    var locals := inherited + Declared(n.props);
    PropsRefs(n.props, locals) + NodesRefs(n.children, locals)
  }

  function NodesRefs(ns: seq<Node>, locals: set<string>): set<Ref>
    decreases ns
  {
    if ns == [] then {} else NodesRefs(ns[..|ns| - 1], locals) + NodeRefs(ns[|ns| - 1], locals)
  }

  /** What one path refers to: nothing if it starts at a local value or below `utils`; a state of a dependency if it
      names both, with or without `state.` in front; and a state alone after `state.` only. */
  lemma PathRefersTo(first: string, second: string, third: string, rest: seq<string>, locals: set<string>)
    ensures first in locals ==> PathRefs([first] + rest, locals) == {}
    ensures PathRefs(["utils"] + rest, locals) == {}
    ensures first !in locals + {"utils", "state"} ==>
              PathRefs([first, second] + rest, locals) == {StateOf(first, second)} && PathRefs([first], locals) == {}
    ensures "state" !in locals ==>
              && PathRefs(["state", second, third] + rest, locals) == {StateOf(second, third)}
              && PathRefs(["state", second], locals) == {Unscoped(second)} && PathRefs(["state"], locals) == {}
  {
  }

  /** A call refers to its action by the last segment of its operation, whatever the local values are. */
  lemma CallRefersTo(dependency: string, front: seq<string>, action: string, args: seq<Argument>, locals: set<string>)
    ensures ActionOf(dependency, action) in CallRefs(Call(dependency, front + [action], args), locals)
    ensures CallRefs(Call(dependency, front + [action], []), locals) == {ActionOf(dependency, action)}
  {
  }

  lemma {:induction false} ArgsReferTo(args: seq<Argument>, locals: set<string>, r: Ref)
    ensures r in ArgsRefs(args, locals) <==> exists i :: 0 <= i < |args| && r in ArgRefs(args[i], locals)
  {
    if args != [] {
      var n := |args| - 1;
      ArgsReferTo(args[..n], locals, r);
      assert forall i :: 0 <= i < n ==> args[..n][i] == args[i];
    }
  }

  /** An argument refers to what its path, its call, and each argument of its call, its utility, its items and its
      entries refer to, and to nothing else. */
  lemma ArgumentRefersTo(a: Argument, locals: set<string>, r: Ref)
    ensures r in ArgRefs(a, locals) <==>
              || (a.path.Some? && r in PathRefs(a.path.value, locals))
              || (a.call.Some? && r in CallRefs(a.call.value, locals))
              || (a.util.Some? && exists i ::
                    0 <= i < |a.util.value.args| && r in ArgRefs(a.util.value.args[i], locals))
              || (exists i :: 0 <= i < |a.items| && r in ArgRefs(a.items[i], locals))
              || (exists i :: 0 <= i < |a.entries| && r in ArgRefs(a.entries[i], locals))
  {
    ArgsReferTo(a.items, locals, r);
    ArgsReferTo(a.entries, locals, r);
    if a.util.Some? {
      ArgsReferTo(a.util.value.args, locals, r);
    }
  }

  lemma {:induction false} PropsReferTo(ps: seq<Prop>, locals: set<string>, r: Ref)
    ensures r in PropsRefs(ps, locals) <==> exists i :: 0 <= i < |ps| && r in PropRefs(ps[i], locals)
  {
    if ps != [] {
      var n := |ps| - 1;
      PropsReferTo(ps[..n], locals, r);
      assert forall i :: 0 <= i < n ==> ps[..n][i] == ps[i];
    }
  }

  lemma {:induction false} NodesReferTo(ns: seq<Node>, locals: set<string>, r: Ref)
    ensures r in NodesRefs(ns, locals) <==> exists i :: 0 <= i < |ns| && r in NodeRefs(ns[i], locals)
  {
    if ns != [] {
      var n := |ns| - 1;
      NodesReferTo(ns[..n], locals, r);
      assert forall i :: 0 <= i < n ==> ns[..n][i] == ns[i];
    }
  }

  /** A node refers to what its props and its children refer to, all of which see what it inherits and what any of its
      props declares. */
  lemma NodeRefersTo(n: Node, inherited: set<string>, r: Ref)
    ensures var locals := inherited + Declared(n.props);
      r in NodeRefs(n, inherited) <==>
        || (exists i :: 0 <= i < |n.props| && r in PropRefs(n.props[i], locals))
        || (exists i :: 0 <= i < |n.children| && r in NodeRefs(n.children[i], locals))
  {
    PropsReferTo(n.props, inherited + Declared(n.props), r);
    NodesReferTo(n.children, inherited + Declared(n.props), r);
  }

  /** The local values of a node are those its props declare. */
  lemma {:induction false} DeclaredAre(ps: seq<Prop>, x: string)
    ensures x in Declared(ps) <==> x != "" && exists i :: 0 <= i < |ps| && ps[i].declares == x
  {
    if ps != [] {
      var n := |ps| - 1;
      DeclaredAre(ps[..n], x);
      assert forall i :: 0 <= i < n ==> ps[..n][i] == ps[i];
    }
  }

  // ---------------------------------------------------------------- the paths of a tree

  /** A path, unless it starts at a local value. */
  function OptPaths(path: Option<Path>, locals: set<string>): set<Path> {
    if path.Some? && path.value[0] !in locals then {path.value} else {}
  }

  function ArgPaths(a: Argument, locals: set<string>): set<Path>
    decreases a
  {
    var call := if a.call.Some? then ArgsPaths(a.call.value.args, locals) else {};
    var util := if a.util.Some? then ArgsPaths(a.util.value.args, locals) else {};
    OptPaths(a.path, locals) + call + util + ArgsPaths(a.items, locals) + ArgsPaths(a.entries, locals)
  }

  function ArgsPaths(args: seq<Argument>, locals: set<string>): set<Path>
    decreases args
  {
    if args == [] then {} else ArgsPaths(args[..|args| - 1], locals) + ArgPaths(args[|args| - 1], locals)
  }

  function PropPaths(p: Prop, locals: set<string>): set<Path> {
    var call := if p.call.Some? then ArgsPaths(p.call.value.args, locals) else {};
    var util := if p.util.Some? then ArgsPaths(p.util.value.args, locals) else {};
    OptPaths(p.dynamic, locals) + call + util
  }

  function PropsPaths(ps: seq<Prop>, locals: set<string>): set<Path> {
    if ps == [] then {} else PropsPaths(ps[..|ps| - 1], locals) + PropPaths(ps[|ps| - 1], locals)
  }

  /** Every path of the tree that does not start at a local value in scope there. */
  function NodePaths(n: Node, inherited: set<string>): set<Path>
    decreases n
  {
    var locals := inherited + Declared(n.props);
    PropsPaths(n.props, locals) + NodesPaths(n.children, locals)
  }

  function NodesPaths(ns: seq<Node>, locals: set<string>): set<Path>
    decreases ns
  {
    if ns == [] then {} else NodesPaths(ns[..|ns| - 1], locals) + NodePaths(ns[|ns| - 1], locals)
  }

  // ---------------------------------------------------------------- the collections

  /** `m.setdefault(key, set()).update(xs)`. */
  function Added(m: map<string, set<string>>, key: string, xs: set<string>): map<string, set<string>> {
    m[key := GetOr(m, key, {}) + xs]
  }

  predicate In(m: map<string, set<string>>, d: string, x: string) {
    d in m && x in m[d]
  }

  /** The three collections that the collector fills, and what they say together. */
  class References {
    var actions: map<string, set<string>>
    var states: map<string, set<string>>
    var implicit: set<string>
    ghost var refs: set<Ref>

    /** No entry is empty, so the dictionaries are exactly their references. */
    ghost predicate Valid()
      reads this
    {
      && (forall d :: d in actions ==> actions[d] != {})
      && (forall d :: d in states ==> states[d] != {})
      && (forall d, x :: ActionOf(d, x) in refs <==> In(actions, d, x))
      && (forall d, x :: StateOf(d, x) in refs <==> In(states, d, x))
      && (forall x :: Unscoped(x) in refs <==> x in implicit)
    }

    constructor ()
      ensures Valid() && refs == {}
    {
      actions, states, implicit, refs := map[], map[], {}, {};
    }

    method AddState(dependency: string, state: string)
      requires Valid()
      modifies this
      ensures Valid() && refs == old(refs) + {StateOf(dependency, state)}
    {
      states := Added(states, dependency, {state});
      refs := refs + {StateOf(dependency, state)};
    }

    method AddAction(dependency: string, action: string)
      requires Valid()
      modifies this
      ensures Valid() && refs == old(refs) + {ActionOf(dependency, action)}
    {
      actions := Added(actions, dependency, {action});
      refs := refs + {ActionOf(dependency, action)};
    }

    method CollectPath(path: Path, locals: set<string>)
      requires Valid()
      modifies this
      ensures Valid() && refs == old(refs) + PathRefs(path, locals)
    {
      var root := path[0];
      if root in locals || root == "utils" {
        return;
      }
      if root == "state" {
        if |path| >= 3 {
          AddState(path[1], path[2]);
        } else if |path| >= 2 {
          implicit := implicit + {path[1]};
          refs := refs + {Unscoped(path[1])};
        }
        return;
      }
      if |path| >= 2 {
        AddState(root, path[1]);
      }
    }

    method CollectCall(c: Call, locals: set<string>)
      requires Valid()
      modifies this
      ensures Valid() && refs == old(refs) + CallRefs(c, locals)
      decreases c
    {
      AddAction(c.dependency, c.operation[|c.operation| - 1]);
      CollectArguments(c.args, locals);
    }

    method CollectArguments(args: seq<Argument>, locals: set<string>)
      requires Valid()
      modifies this
      ensures Valid() && refs == old(refs) + ArgsRefs(args, locals)
      decreases args
    {
      for i := 0 to |args|
        invariant Valid() && refs == old(refs) + ArgsRefs(args[..i], locals)
      {
        assert args[..i + 1][..i] == args[..i];
        CollectArgument(args[i], locals);
      }
      assert args[..|args|] == args;
    }

    method CollectArgument(a: Argument, locals: set<string>)
      requires Valid()
      modifies this
      ensures Valid() && refs == old(refs) + ArgRefs(a, locals)
      decreases a
    {
      if a.path.Some? {
        CollectPath(a.path.value, locals);
      }
      if a.call.Some? {
        CollectCall(a.call.value, locals);
      }
      if a.util.Some? {
        CollectArguments(a.util.value.args, locals);
      }
      CollectArguments(a.items, locals);
      CollectArguments(a.entries, locals);
    }

    method CollectProp(p: Prop, locals: set<string>)
      requires Valid()
      modifies this
      ensures Valid() && refs == old(refs) + PropRefs(p, locals)
    {
      if p.dynamic.Some? {
        CollectPath(p.dynamic.value, locals);
      }
      if p.call.Some? {
        CollectCall(p.call.value, locals);
      }
      if p.util.Some? {
        CollectArguments(p.util.value.args, locals);
      }
    }

    /** Takes over what a child collected. */
    method Merge(other: References)
      requires Valid() && other.Valid() && other != this
      modifies this
      ensures Valid() && refs == old(refs) + other.refs
    {
      actions := MergeReferenceMaps(actions, other.actions);
      states := MergeReferenceMaps(states, other.states);
      implicit := implicit + other.implicit;
      refs := refs + other.refs;
    }
  }

  method MergeReferenceMaps(target: map<string, set<string>>, source: map<string, set<string>>)
    returns (merged: map<string, set<string>>)
    requires (forall d :: d in target ==> target[d] != {}) && (forall d :: d in source ==> source[d] != {})
    ensures forall d, x :: In(merged, d, x) <==> In(target, d, x) || In(source, d, x)
    ensures forall d :: d in merged ==> merged[d] != {}
  {
    merged := target;
    var todo := source.Keys;
    while todo != {}
      invariant todo <= source.Keys
      invariant forall d, x :: In(merged, d, x) <==> In(target, d, x) || (In(source, d, x) && d !in todo)
      invariant forall d :: d in merged ==> merged[d] != {}
    {
      var d :| d in todo;
      merged := Added(merged, d, source[d]);
      todo := todo - {d};
    }
  }

  lemma OneMoreChild(ns: seq<Node>, i: nat, locals: set<string>, refs: set<Ref>)
    requires i < |ns|
    ensures refs + NodesRefs(ns[..i], locals) + NodeRefs(ns[i], locals) == refs + NodesRefs(ns[..i + 1], locals)
  {
    assert ns[..i + 1][..i] == ns[..i];
  }

  /** `_collect_component_references`. */
  method CollectComponent(n: Node, inherited: set<string>) returns (r: References)
    ensures fresh(r) && r.Valid() && r.refs == NodeRefs(n, inherited)
    decreases n, 1
  {
    r := new References();
    var locals := CollectLocals(n.props, inherited);
    CollectProps(r, n.props, locals);
    CollectChildren(r, n, locals);
  }

  method CollectLocals(ps: seq<Prop>, inherited: set<string>) returns (locals: set<string>)
    ensures locals == inherited + Declared(ps)
  {
    locals := inherited;
    for i := 0 to |ps|
      invariant locals == inherited + Declared(ps[..i])
    {
      assert ps[..i + 1][..i] == ps[..i];
      if ps[i].declares != "" {
        locals := locals + {ps[i].declares};
      }
    }
    assert ps[..|ps|] == ps;
  }

  method CollectChildren(r: References, n: Node, locals: set<string>)
    requires r.Valid()
    modifies r
    ensures r.Valid() && r.refs == old(r.refs) + NodesRefs(n.children, locals)
    decreases n, 0
  {
    for i := 0 to |n.children|
      invariant r.Valid() && r.refs == old(r.refs) + NodesRefs(n.children[..i], locals)
    {
      ghost var was := r.refs;
      var child := CollectComponent(n.children[i], locals);
      assert r.refs == was && child != r;
      r.Merge(child);
      OneMoreChild(n.children, i, locals, old(r.refs));
    }
    assert n.children[..|n.children|] == n.children;
  }

  method CollectProps(r: References, ps: seq<Prop>, locals: set<string>)
    requires r.Valid()
    modifies r
    ensures r.Valid() && r.refs == old(r.refs) + PropsRefs(ps, locals)
  {
    for i := 0 to |ps|
      invariant r.Valid() && r.refs == old(r.refs) + PropsRefs(ps[..i], locals)
    {
      assert ps[..i + 1][..i] == ps[..i];
      r.CollectProp(ps[i], locals);
    }
    assert ps[..|ps|] == ps;
  }
}
