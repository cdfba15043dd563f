/** `validate_blok` (rekuest_next/blok/parser.py), and how it agrees with the references that the registry collects. */
module BlokValidation {
  import opened Prelude
  import opened KeyOrder
  import opened Blok
  import Ports

  /** A state that a dependency must have, with the match tree of its ports. */
  datatype StateDemand = StateDemand(key: string, matches: seq<PortMatch>)

  datatype Dependency = Dependency(key: string, app: Option<string>, actions: seq<string>, states: seq<StateDemand>)

  /** What `validate_blok` looks references up in. */
  datatype Env = Env(keys: set<string>, aliases: map<string, string>, demands: map<string, map<string, StateDemand>>,
                     index: map<string, seq<StateDemand>>)

  /** `Nested` is a tail that the match tree does not have; `Crash` an index error. */
  datatype Failure =
    | Nested(path: Path) | NotIterable(path: Path) | UnknownState(path: Path) | Ambiguous(path: Path)
    | UnknownReference(path: Path) | UnknownDependency(dependency: string) | Crash(path: Path)

  datatype Result<+T> = Ok(value: T) | Err(failure: Failure)

  /** The match of every local value, where it is known. */
  type Locals = map<string, Option<PortMatch>>

  // ---------------------------------------------------------------- the environment

  function ByKey(states: seq<StateDemand>): map<string, StateDemand> {
    if states == [] then map[] else ByKey(states[..|states| - 1])[states[|states| - 1].key := states[|states| - 1]]
  }

  function Indexed(index: map<string, seq<StateDemand>>, states: seq<StateDemand>): map<string, seq<StateDemand>> {
    if states == [] then index
    else
      var front, s := Indexed(index, states[..|states| - 1]), states[|states| - 1];
      front[s.key := GetOr(front, s.key, []) + [s]]
  }

  function EnvOf(deps: seq<Dependency>): Env {
    if deps == [] then Env({}, map[], map[], map[])
    else
      var e, d := EnvOf(deps[..|deps| - 1]), deps[|deps| - 1];
      Env(e.keys + {d.key}, if d.app.Some? then e.aliases[d.app.value := d.key] else e.aliases,
          e.demands[d.key := ByKey(d.states)], Indexed(e.index, d.states))
  }

  // ---------------------------------------------------------------- resolving a path

  function RootMatch(s: StateDemand): PortMatch {
    Ports.PortMatch(None, Some(s.key), None, None, None, s.matches)
  }

  function Tail(m: Option<PortMatch>, rest: seq<string>, path: Path): Result<Option<PortMatch>> {
    match Ports.Resolve(m, rest)
    case Found(x) => Ok(x)
    case _ => Err(Nested(path))
  }

  function OnDependency(env: Env, d: string, rest: seq<string>, path: Path): Result<Option<PortMatch>>
    requires d in env.demands
  {
    if rest == [] then Ok(None)
    else if rest[0] !in env.demands[d] then Err(UnknownState(path))
    else Tail(Some(RootMatch(env.demands[d][rest[0]])), rest[1..], path)
  }

  function Canonical(env: Env, name: string): string {
    GetOr(env.aliases, name, name)
  }

  function ResolvePath(env: Env, path: Path, locals: Locals): Result<Option<PortMatch>> {
    var root := path[0];
    if root in locals then Tail(locals[root], path[1..], path)
    else if Canonical(env, root) in env.demands then OnDependency(env, Canonical(env, root), path[1..], path)
    else if root == "state" && |path| == 1 then Err(Crash(path))
    else if root == "state" && |path| > 2 && Canonical(env, path[1]) in env.demands then
      OnDependency(env, Canonical(env, path[1]), path[2..], path)
    else if root == "state" && |GetOr(env.index, path[1], [])| == 1 then
      Tail(Some(RootMatch(env.index[path[1]][0])), path[2..], path)
    else if root == "state" && |GetOr(env.index, path[1], [])| > 1 then Err(Ambiguous(path))
    else if root == "actions" && |path| > 1 && Canonical(env, path[1]) in env.keys then Ok(None)
    else if Canonical(env, root) in env.keys || root == "utils" then Ok(None)
    else Err(UnknownReference(path))
  }

  function PathFailure(env: Env, path: Option<Path>, locals: Locals): Option<Failure> {
    match path
    case None => None
    case Some(p) => (match ResolvePath(env, p, locals) case Ok(_) => None case Err(f) => Some(f))
  }

  /** A ForEach iterates over what has exactly one child keyed "...". */
  function ItemOf(m: Option<PortMatch>, path: Path): Result<Option<PortMatch>> {
    match m
    case None => Ok(None)
    case Some(x) =>
      if |x.children| == 1 && x.children[0].key == Some("...") then Ok(Some(x.children[0])) else Err(NotIterable(path))
  }

  // ---------------------------------------------------------------- the validating walk

  /** The first failure, if any. */
  function Then(a: Option<Failure>, b: Option<Failure>): Option<Failure> {
    if a.Some? then a else b
  }

  function CheckArg(env: Env, a: Argument, locals: Locals): Option<Failure>
    decreases a
  {
    var call := if a.call.Some? then CheckCall(env, a.call.value, locals) else None;
    var util := if a.util.Some? then CheckArgs(env, a.util.value.args, locals) else None;
    Then(PathFailure(env, a.path, locals),
      Then(call, Then(util, Then(CheckArgs(env, a.items, locals), CheckArgs(env, a.entries, locals)))))
  }

  function CheckArgs(env: Env, args: seq<Argument>, locals: Locals): Option<Failure>
    decreases args
  {
    if args == [] then None
    else Then(CheckArgs(env, args[..|args| - 1], locals), CheckArg(env, args[|args| - 1], locals))
  }

  function CheckCall(env: Env, c: Call, locals: Locals): Option<Failure>
    decreases c
  {
    if Canonical(env, c.dependency) !in env.keys then Some(UnknownDependency(c.dependency))
    else CheckArgs(env, c.args, locals)
  }

  function CheckProp(env: Env, p: Prop, locals: Locals): Option<Failure> {
    var call := if p.call.Some? then CheckCall(env, p.call.value, locals) else None;
    var util := if p.util.Some? then CheckArgs(env, p.util.value.args, locals) else None;
    Then(PathFailure(env, p.dynamic, locals), Then(call, util))
  }

  function CheckProps(env: Env, ps: seq<Prop>, locals: Locals): Option<Failure> {
    if ps == [] then None
    else Then(CheckProps(env, ps[..|ps| - 1], locals), CheckProp(env, ps[|ps| - 1], locals))
  }

  /** Declared values that are not in scope yet are in scope, with nothing known of them. */
  function WithDeclared(ps: seq<Prop>, locals: Locals): Locals {
    if ps == [] then locals
    else
      var front, p := WithDeclared(ps[..|ps| - 1], locals), ps[|ps| - 1];
      if p.declares != "" && p.declares !in front then front[p.declares := None] else front
  }

  function LetProp(ps: seq<Prop>): Option<Prop> {
    if ps == [] then None else if ps[0].key == "let" && ps[0].declares != "" then Some(ps[0]) else LetProp(ps[1..])
  }

  function ItemsProp(ps: seq<Prop>): Option<Prop> {
    if ps == [] then None else if ps[0].key == "items" && ps[0].dynamic.Some? then Some(ps[0]) else ItemsProp(ps[1..])
  }

  /** What a ForEach iterates over tells what its loop variable is. */
  function WithForeach(env: Env, n: Node, locals: Locals): Result<Locals> {
    var let, items := LetProp(n.props), ItemsProp(n.props);
    if !n.foreach || let.None? || items.None? || items.value.dynamic.None? then Ok(locals)
    else
      var path := items.value.dynamic.value;
      match ResolvePath(env, path, locals)
      case Err(f) => Err(f)
      case Ok(m) => (match ItemOf(m, path) case Err(f) => Err(f) case Ok(x) => Ok(locals[let.value.declares := x]))
  }

  function NodeLocals(env: Env, n: Node, inherited: Locals): Result<Locals> {
    WithForeach(env, n, WithDeclared(n.props, inherited))
  }

  function CheckNode(env: Env, n: Node, inherited: Locals): Option<Failure>
    decreases n
  {
    match NodeLocals(env, n, inherited)
    case Err(f) => Some(f)
    case Ok(locals) => Then(CheckProps(env, n.props, locals), CheckNodes(env, n.children, locals))
  }

  function CheckNodes(env: Env, ns: seq<Node>, locals: Locals): Option<Failure>
    decreases ns
  {
    if ns == [] then None
    else Then(CheckNodes(env, ns[..|ns| - 1], locals), CheckNode(env, ns[|ns| - 1], locals))
  }

  method ValidateProps(env: Env, ps: seq<Prop>, locals: Locals) returns (failure: Option<Failure>)
    ensures failure == CheckProps(env, ps, locals)
  {
    for i := 0 to |ps|
      invariant CheckProps(env, ps[..i], locals) == None
    {
      assert ps[..i + 1][..i] == ps[..i];
      failure := CheckProp(env, ps[i], locals);
      if failure.Some? {
        PropFails(env, ps, i + 1, locals);
        return;
      }
    }
    assert ps[..|ps|] == ps;
    failure := None;
  }

  /** The copied locals, extended by the loop over the props and by the ForEach. */
  method AvailableLocals(env: Env, n: Node, inherited: Locals) returns (r: Result<Locals>)
    ensures r == NodeLocals(env, n, inherited)
  {
    var locals := inherited;
    for i := 0 to |n.props|
      invariant locals == WithDeclared(n.props[..i], inherited)
    {
      assert n.props[..i + 1][..i] == n.props[..i];
      var declares := n.props[i].declares;
      if declares != "" && declares !in locals {
        locals := locals[declares := None];
      }
    }
    assert n.props[..|n.props|] == n.props;
    r := WithForeach(env, n, locals);
  }

  /** `_validate_node`. */
  method ValidateNode(env: Env, n: Node, inherited: Locals) returns (failure: Option<Failure>)
    ensures failure == CheckNode(env, n, inherited)
    decreases n
  {
    var registered := AvailableLocals(env, n, inherited);
    if registered.Err? {
      return Some(registered.failure);
    }
    var locals := registered.value;
    failure := ValidateProps(env, n.props, locals);
    if failure.Some? {
      return;
    }
    for i := 0 to |n.children|
      invariant CheckNodes(env, n.children[..i], locals) == None
    {
      assert n.children[..i + 1][..i] == n.children[..i];
      failure := ValidateNode(env, n.children[i], locals);
      if failure.Some? {
        ChildFails(env, n.children, i + 1, locals);
        return;
      }
    }
    assert n.children[..|n.children|] == n.children;
    failure := None;
  }

  lemma {:induction false} PropFails(env: Env, ps: seq<Prop>, i: nat, locals: Locals)
    requires i <= |ps| && CheckProps(env, ps[..i], locals).Some?
    ensures CheckProps(env, ps, locals) == CheckProps(env, ps[..i], locals)
  {
    if i < |ps| {
      assert ps[..|ps| - 1][..i] == ps[..i];
      PropFails(env, ps[..|ps| - 1], i, locals);
    } else {
      assert ps[..i] == ps;
    }
  }

  lemma {:induction false} ChildFails(env: Env, ns: seq<Node>, i: nat, locals: Locals)
    requires i <= |ns| && CheckNodes(env, ns[..i], locals).Some?
    ensures CheckNodes(env, ns, locals) == CheckNodes(env, ns[..i], locals)
  {
    if i < |ns| {
      assert ns[..|ns| - 1][..i] == ns[..i];
      ChildFails(env, ns[..|ns| - 1], i, locals);
    } else {
      assert ns[..i] == ns;
    }
  }

  /** `validate_blok`. */
  method ValidateBlok(component: Node, deps: seq<Dependency>) returns (failure: Option<Failure>)
    ensures failure == CheckNode(EnvOf(deps), component, map[])
  {
    var env := Env({}, map[], map[], map[]);
    for i := 0 to |deps|
      invariant env == EnvOf(deps[..i])
    {
      assert deps[..i + 1][..i] == deps[..i];
      var d := deps[i];
      var states, index := map[], env.index;
      for k := 0 to |d.states|
        invariant states == ByKey(d.states[..k]) && index == Indexed(env.index, d.states[..k])
      {
        assert d.states[..k + 1][..k] == d.states[..k];
        states := states[d.states[k].key := d.states[k]];
        index := index[d.states[k].key := GetOr(index, d.states[k].key, []) + [d.states[k]]];
      }
      assert d.states[..|d.states|] == d.states;
      env := Env(env.keys + {d.key}, if d.app.Some? then env.aliases[d.app.value := d.key] else env.aliases,
        env.demands[d.key := states], index);
    }
    assert deps[..|deps|] == deps;
    failure := ValidateNode(env, component, map[]);
  }

  // ---------------------------------------------------------------- the two walks see the same local values

  lemma {:induction false} DeclaredKeys(ps: seq<Prop>, locals: Locals)
    ensures WithDeclared(ps, locals).Keys == locals.Keys + Declared(ps)
  {
    if ps != [] {
      DeclaredKeys(ps[..|ps| - 1], locals);
    }
  }

  lemma LetDeclares(ps: seq<Prop>)
    requires LetProp(ps).Some?
    ensures LetProp(ps).value.declares in Declared(ps)
  {
    var i := LetIndex(ps);
    DeclaredHas(ps, i);
  }

  function LetIndex(ps: seq<Prop>): (i: nat)
    requires LetProp(ps).Some?
    ensures i < |ps| && ps[i] == LetProp(ps).value && ps[i].declares != ""
  {
    if ps[0].key == "let" && ps[0].declares != "" then 0 else 1 + LetIndex(ps[1..])
  }

  lemma {:induction false} DeclaredHas(ps: seq<Prop>, i: nat)
    requires i < |ps| && ps[i].declares != ""
    ensures ps[i].declares in Declared(ps)
  {
    if i < |ps| - 1 {
      DeclaredHas(ps[..|ps| - 1], i);
    }
  }

  /** At one node the validator's locals have exactly the keys of the collector's set. */
  lemma LocalsAgree(env: Env, n: Node, inherited: Locals)
    requires NodeLocals(env, n, inherited).Ok?
    ensures NodeLocals(env, n, inherited).value.Keys == inherited.Keys + Declared(n.props)
  {
    DeclaredKeys(n.props, inherited);
    if LetProp(n.props).Some? {
      LetDeclares(n.props);
    }
  }

  /** The collector's locals at the node that `position` leads to, and the validator's. */
  function CollectorLocalsAt(n: Node, inherited: set<string>, position: seq<nat>): Option<set<string>>
    decreases position
  {
    var locals := inherited + Declared(n.props);
    if position == [] then Some(locals)
    else if position[0] >= |n.children| then None
    else CollectorLocalsAt(n.children[position[0]], locals, position[1..])
  }

  function ValidatorLocalsAt(env: Env, n: Node, inherited: Locals, position: seq<nat>): Option<Locals>
    decreases position
  {
    match NodeLocals(env, n, inherited)
    case Err(_) => None
    case Ok(locals) =>
      if position == [] then Some(locals)
      else if position[0] >= |n.children| then None
      else ValidatorLocalsAt(env, n.children[position[0]], locals, position[1..])
  }

  /** At every node of the tree, as far down as every ForEach above it resolves. */
  lemma {:induction false} LocalsAgreeEverywhere(env: Env, n: Node, inherited: Locals, position: seq<nat>)
    requires ValidatorLocalsAt(env, n, inherited, position).Some?
    ensures CollectorLocalsAt(n, inherited.Keys, position) ==
            Some(ValidatorLocalsAt(env, n, inherited, position).value.Keys)
    decreases position
  {
    LocalsAgree(env, n, inherited);
    if position != [] {
      LocalsAgreeEverywhere(env, n.children[position[0]], NodeLocals(env, n, inherited).value, position[1..]);
    }
  }

  // ---------------------------------------------------------------- a tree fits what was collected from it

  /** The failures that no choice of dependencies avoids. */
  predicate OwnFault(f: Failure) {
    f.Nested? || f.NotIterable? || ((f.UnknownReference? || f.Crash?) && |f.path| == 1)
  }

  predicate Harmless(f: Option<Failure>) {
    f.None? || OwnFault(f.value)
  }

  /** The environment has what the references ask for, without aliases. */
  ghost predicate Covers(env: Env, refs: set<Ref>) {
    && env.aliases == map[] && env.keys == env.demands.Keys
    && (forall d, x :: ActionOf(d, x) in refs ==> d in env.keys)
    && (forall d, x :: StateOf(d, x) in refs ==> d in env.demands && x in env.demands[d])
    && (forall x :: Unscoped(x) in refs ==> |GetOr(env.index, x, [])| == 1)
  }

  /** A dependency called "state" or "utils" takes the path over, and does not have the state of its second segment. */
  predicate Shadowed(env: Env, p: Path) {
    p[0] in {"state", "utils"} && p[0] in env.demands && |p| >= 2 && p[1] !in env.demands[p[0]]
  }

  predicate ShadowFree(env: Env, paths: set<Path>) {
    forall p :: p in paths ==> !Shadowed(env, p)
  }

  lemma PathFits(env: Env, path: Path, locals: Locals)
    requires Covers(env, PathRefs(path, locals.Keys)) && (path[0] in locals || !Shadowed(env, path))
    ensures ResolvePath(env, path, locals).Err? ==> OwnFault(ResolvePath(env, path, locals).failure)
  {
    if path[0] !in locals && path[0] != "utils" {
      if path[0] == "state" {
        if |path| >= 3 {
          assert StateOf(path[1], path[2]) in PathRefs(path, locals.Keys);
        } else if |path| == 2 {
          assert Unscoped(path[1]) in PathRefs(path, locals.Keys);
        }
      } else if |path| >= 2 {
        assert StateOf(path[0], path[1]) in PathRefs(path, locals.Keys);
      }
    }
  }

  lemma OptPathFits(env: Env, path: Option<Path>, locals: Locals)
    requires Covers(env, OptPathRefs(path, locals.Keys)) && ShadowFree(env, OptPaths(path, locals.Keys))
    ensures Harmless(PathFailure(env, path, locals))
  {
    if path.Some? {
      assert path.value[0] !in locals ==> path.value in OptPaths(path, locals.Keys);
      PathFits(env, path.value, locals);
    }
  }

  /** What a part of the tree refers to is covered and free of shadows if the whole is. */
  lemma FitsLess(env: Env, more: set<Ref>, less: set<Ref>, morePaths: set<Path>, lessPaths: set<Path>)
    requires Covers(env, more) && less <= more && ShadowFree(env, morePaths) && lessPaths <= morePaths
    ensures Covers(env, less) && ShadowFree(env, lessPaths)
  {
  }

  lemma {:induction false} ArgFits(env: Env, a: Argument, locals: Locals)
    requires Covers(env, ArgRefs(a, locals.Keys)) && ShadowFree(env, ArgPaths(a, locals.Keys))
    ensures Harmless(CheckArg(env, a, locals))
    decreases a
  {
    var keys := locals.Keys;
    var refs, paths := ArgRefs(a, keys), ArgPaths(a, keys);
    FitsLess(env, refs, OptPathRefs(a.path, keys), paths, OptPaths(a.path, keys));
    OptPathFits(env, a.path, locals);
    if a.call.Some? {
      FitsLess(env, refs, CallRefs(a.call.value, keys), paths, ArgsPaths(a.call.value.args, keys));
      CallFits(env, a.call.value, locals);
    }
    if a.util.Some? {
      FitsLess(env, refs, ArgsRefs(a.util.value.args, keys), paths, ArgsPaths(a.util.value.args, keys));
      ArgsFit(env, a.util.value.args, locals);
    }
    FitsLess(env, refs, ArgsRefs(a.items, keys), paths, ArgsPaths(a.items, keys));
    ArgsFit(env, a.items, locals);
    FitsLess(env, refs, ArgsRefs(a.entries, keys), paths, ArgsPaths(a.entries, keys));
    ArgsFit(env, a.entries, locals);
  }

  lemma {:induction false} ArgsFit(env: Env, args: seq<Argument>, locals: Locals)
    requires Covers(env, ArgsRefs(args, locals.Keys)) && ShadowFree(env, ArgsPaths(args, locals.Keys))
    ensures Harmless(CheckArgs(env, args, locals))
    decreases args
  {
    if args != [] {
      var n, keys := |args| - 1, locals.Keys;
      var refs, paths := ArgsRefs(args, keys), ArgsPaths(args, keys);
      FitsLess(env, refs, ArgsRefs(args[..n], keys), paths, ArgsPaths(args[..n], keys));
      ArgsFit(env, args[..n], locals);
      FitsLess(env, refs, ArgRefs(args[n], keys), paths, ArgPaths(args[n], keys));
      ArgFits(env, args[n], locals);
    }
  }

  lemma {:induction false} CallFits(env: Env, c: Call, locals: Locals)
    requires Covers(env, CallRefs(c, locals.Keys)) && ShadowFree(env, ArgsPaths(c.args, locals.Keys))
    ensures Harmless(CheckCall(env, c, locals))
    decreases c
  {
    var refs, paths := CallRefs(c, locals.Keys), ArgsPaths(c.args, locals.Keys);
    assert ActionOf(c.dependency, c.operation[|c.operation| - 1]) in refs;
    FitsLess(env, refs, ArgsRefs(c.args, locals.Keys), paths, paths);
    ArgsFit(env, c.args, locals);
  }

  lemma PropFits(env: Env, p: Prop, locals: Locals)
    requires Covers(env, PropRefs(p, locals.Keys)) && ShadowFree(env, PropPaths(p, locals.Keys))
    ensures Harmless(CheckProp(env, p, locals)) && Harmless(PathFailure(env, p.dynamic, locals))
  {
    var keys := locals.Keys;
    var refs, paths := PropRefs(p, keys), PropPaths(p, keys);
    FitsLess(env, refs, OptPathRefs(p.dynamic, keys), paths, OptPaths(p.dynamic, keys));
    OptPathFits(env, p.dynamic, locals);
    if p.call.Some? {
      FitsLess(env, refs, CallRefs(p.call.value, keys), paths, ArgsPaths(p.call.value.args, keys));
      CallFits(env, p.call.value, locals);
    }
    if p.util.Some? {
      FitsLess(env, refs, ArgsRefs(p.util.value.args, keys), paths, ArgsPaths(p.util.value.args, keys));
      ArgsFit(env, p.util.value.args, locals);
    }
  }

  lemma {:induction false} PropsFit(env: Env, ps: seq<Prop>, locals: Locals)
    requires Covers(env, PropsRefs(ps, locals.Keys)) && ShadowFree(env, PropsPaths(ps, locals.Keys))
    ensures Harmless(CheckProps(env, ps, locals))
    ensures forall i :: 0 <= i < |ps| ==> Harmless(PathFailure(env, ps[i].dynamic, locals))
  {
    if ps != [] {
      var n, keys := |ps| - 1, locals.Keys;
      var refs, paths := PropsRefs(ps, keys), PropsPaths(ps, keys);
      FitsLess(env, refs, PropsRefs(ps[..n], keys), paths, PropsPaths(ps[..n], keys));
      PropsFit(env, ps[..n], locals);
      FitsLess(env, refs, PropRefs(ps[n], keys), paths, PropPaths(ps[n], keys));
      PropFits(env, ps[n], locals);
    }
  }

  function ItemsIndex(ps: seq<Prop>): (i: nat)
    requires ItemsProp(ps).Some?
    ensures i < |ps| && ps[i] == ItemsProp(ps).value
  {
    if ps[0].key == "items" && ps[0].dynamic.Some? then 0 else 1 + ItemsIndex(ps[1..])
  }

  /** The ForEach of a node resolves a path that is also checked as a prop, before its loop variable is known. */
  lemma ForeachFits(env: Env, n: Node, inherited: Locals)
    requires var keys := inherited.Keys + Declared(n.props);
      Covers(env, PropsRefs(n.props, keys)) && ShadowFree(env, PropsPaths(n.props, keys))
    ensures NodeLocals(env, n, inherited).Err? ==> OwnFault(NodeLocals(env, n, inherited).failure)
  {
    var locals := WithDeclared(n.props, inherited);
    DeclaredKeys(n.props, inherited);
    PropsFit(env, n.props, locals);
    if ItemsProp(n.props).Some? {
      var i := ItemsIndex(n.props);
      assert Harmless(PathFailure(env, n.props[i].dynamic, locals));
    }
  }

  /** A tree that is covered and free of shadows only fails by its own faults. */
  lemma {:induction false} NodeFits(env: Env, n: Node, inherited: Locals)
    requires Covers(env, NodeRefs(n, inherited.Keys)) && ShadowFree(env, NodePaths(n, inherited.Keys))
    ensures Harmless(CheckNode(env, n, inherited))
    decreases n
  {
    var keys := inherited.Keys + Declared(n.props);
    var refs, paths := NodeRefs(n, inherited.Keys), NodePaths(n, inherited.Keys);
    FitsLess(env, refs, PropsRefs(n.props, keys), paths, PropsPaths(n.props, keys));
    ForeachFits(env, n, inherited);
    if NodeLocals(env, n, inherited).Ok? {
      var locals := NodeLocals(env, n, inherited).value;
      LocalsAgree(env, n, inherited);
      PropsFit(env, n.props, locals);
      FitsLess(env, refs, NodesRefs(n.children, keys), paths, NodesPaths(n.children, keys));
      NodesFit(env, n.children, locals);
    }
  }

  lemma {:induction false} NodesFit(env: Env, ns: seq<Node>, locals: Locals)
    requires Covers(env, NodesRefs(ns, locals.Keys)) && ShadowFree(env, NodesPaths(ns, locals.Keys))
    ensures Harmless(CheckNodes(env, ns, locals))
    decreases ns
  {
    if ns != [] {
      var n, keys := |ns| - 1, locals.Keys;
      var refs, paths := NodesRefs(ns, keys), NodesPaths(ns, keys);
      FitsLess(env, refs, NodesRefs(ns[..n], keys), paths, NodesPaths(ns[..n], keys));
      NodesFit(env, ns[..n], locals);
      FitsLess(env, refs, NodeRefs(ns[n], keys), paths, NodePaths(ns[n], keys));
      NodeFits(env, ns[n], locals);
    }
  }

  // ---------------------------------------------------------------- a shadowed path fails wherever it is

  lemma {:induction false} ArgShadowed(env: Env, a: Argument, locals: Locals, p: Path)
    requires env.aliases == map[] && Shadowed(env, p) && p in ArgPaths(a, locals.Keys)
    ensures CheckArg(env, a, locals).Some?
    decreases a
  {
    if a.call.Some? && p in ArgsPaths(a.call.value.args, locals.Keys) {
      ArgsShadowed(env, a.call.value.args, locals, p);
    } else if a.util.Some? && p in ArgsPaths(a.util.value.args, locals.Keys) {
      ArgsShadowed(env, a.util.value.args, locals, p);
    } else if p in ArgsPaths(a.items, locals.Keys) {
      ArgsShadowed(env, a.items, locals, p);
    } else if p in ArgsPaths(a.entries, locals.Keys) {
      ArgsShadowed(env, a.entries, locals, p);
    }
  }

  lemma {:induction false} ArgsShadowed(env: Env, args: seq<Argument>, locals: Locals, p: Path)
    requires env.aliases == map[] && Shadowed(env, p) && p in ArgsPaths(args, locals.Keys)
    ensures CheckArgs(env, args, locals).Some?
    decreases args
  {
    var n := |args| - 1;
    if p in ArgsPaths(args[..n], locals.Keys) {
      ArgsShadowed(env, args[..n], locals, p);
    } else {
      ArgShadowed(env, args[n], locals, p);
    }
  }

  lemma {:induction false} PropsShadowed(env: Env, ps: seq<Prop>, locals: Locals, p: Path)
    requires env.aliases == map[] && Shadowed(env, p) && p in PropsPaths(ps, locals.Keys)
    ensures CheckProps(env, ps, locals).Some?
  {
    var n := |ps| - 1;
    if p in PropsPaths(ps[..n], locals.Keys) {
      PropsShadowed(env, ps[..n], locals, p);
    } else {
      var last := ps[n];
      if last.call.Some? && p in ArgsPaths(last.call.value.args, locals.Keys) {
        ArgsShadowed(env, last.call.value.args, locals, p);
      } else if last.util.Some? && p in ArgsPaths(last.util.value.args, locals.Keys) {
        ArgsShadowed(env, last.util.value.args, locals, p);
      }
    }
  }

  /** A tree with a shadowed path does not validate. */
  lemma {:induction false} NodeShadowed(env: Env, n: Node, inherited: Locals, p: Path)
    requires env.aliases == map[] && Shadowed(env, p) && p in NodePaths(n, inherited.Keys)
    ensures CheckNode(env, n, inherited).Some?
    decreases n
  {
    if NodeLocals(env, n, inherited).Ok? {
      var locals := NodeLocals(env, n, inherited).value;
      LocalsAgree(env, n, inherited);
      if p in PropsPaths(n.props, locals.Keys) {
        PropsShadowed(env, n.props, locals, p);
      } else {
        NodesShadowed(env, n.children, locals, p);
      }
    }
  }

  lemma {:induction false} NodesShadowed(env: Env, ns: seq<Node>, locals: Locals, p: Path)
    requires env.aliases == map[] && Shadowed(env, p) && p in NodesPaths(ns, locals.Keys)
    ensures CheckNodes(env, ns, locals).Some?
    decreases ns
  {
    var n := |ns| - 1;
    if p in NodesPaths(ns[..n], locals.Keys) {
      NodesShadowed(env, ns[..n], locals, p);
    } else {
      NodeShadowed(env, ns[n], locals, p);
    }
  }
}
