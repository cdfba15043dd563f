/** What `validate_blok` (rekuest_next/blok/parser.py) promises of a component it accepts: every dependency that is
    called is there, and every path that does not start at a local value leads somewhere. */
module BlokAccepted {
  import opened Prelude
  import opened Blok
  import opened BlokValidation
  import Ports

  // ---------------------------------------------------------------- what names mean

  /** The key of the dependency that a name stands for: an app that is one, or the name itself. */
  function KeyFor(env: Env, name: string): string {
    if name in env.aliases then env.aliases[name] else name
  }

  /** The segments after a state lead somewhere below it. */
  predicate Below(s: StateDemand, rest: seq<string>) {
    rest == [] ||
    (Ports.ChildNamed(s.matches, rest[0]).Some?
     && Ports.Resolve(Ports.ChildNamed(s.matches, rest[0]), rest[1..]).Found?)
  }

  /** A dependency has the state that comes next, or nothing comes next. */
  predicate OnKey(env: Env, d: string, rest: seq<string>)
    requires d in env.demands
  {
    rest == [] || (rest[0] in env.demands[d] && Below(env.demands[d][rest[0]], rest[1..]))
  }

  /** A path leads somewhere without any local value. */
  predicate Leads(env: Env, p: Path) {
    var root := KeyFor(env, p[0]);
    if root in env.demands then OnKey(env, root, p[1..])
    else if p[0] == "state" then
      |p| > 1 &&
      if |p| > 2 && KeyFor(env, p[1]) in env.demands then OnKey(env, KeyFor(env, p[1]), p[2..])
      else if p[1] in env.index && env.index[p[1]] != [] then
        |env.index[p[1]]| == 1 && Below(env.index[p[1]][0], p[2..])
      else root in env.keys
    else p[0] == "utils" || root in env.keys || (p[0] == "actions" && |p| > 1 && KeyFor(env, p[1]) in env.keys)
  }

  lemma TailIff(s: StateDemand, rest: seq<string>, p: Path)
    ensures Tail(Some(RootMatch(s)), rest, p).Ok? <==> Below(s, rest)
  {
  }

  /** A path that does not start at a local value resolves exactly if it leads somewhere, whatever the local values. */
  lemma ResolvesIff(env: Env, p: Path, locals: Locals)
    requires p[0] !in locals
    ensures ResolvePath(env, p, locals).Ok? <==> Leads(env, p)
  {
    var root := KeyFor(env, p[0]);
    if root in env.demands {
      OnKeyIff(env, root, p[1..], p);
    } else if p[0] == "state" && |p| > 1 {
      if |p| > 2 && KeyFor(env, p[1]) in env.demands {
        OnKeyIff(env, KeyFor(env, p[1]), p[2..], p);
      } else if |GetOr(env.index, p[1], [])| == 1 {
        TailIff(env.index[p[1]][0], p[2..], p);
      }
    }
  }

  lemma OnKeyIff(env: Env, d: string, rest: seq<string>, p: Path)
    requires d in env.demands
    ensures OnDependency(env, d, rest, p).Ok? <==> OnKey(env, d, rest)
  {
    if rest != [] && rest[0] in env.demands[d] {
      TailIff(env.demands[d][rest[0]], rest[1..], p);
    }
  }

  /** What a path that leads nowhere is told: that a state is missing, or something below it; that the key of a state
      fits more than one dependency; or that nothing is known of it. `state` alone is an index error. */
  lemma FailsAs(env: Env, p: Path, locals: Locals)
    requires p[0] !in locals && !Leads(env, p)
    ensures ResolvePath(env, p, locals).Err?
    ensures var f, root := ResolvePath(env, p, locals).failure, KeyFor(env, p[0]);
      var scoped := p[0] == "state" && root !in env.demands && |p| > 2 && KeyFor(env, p[1]) in env.demands;
      var found := p[0] == "state" && root !in env.demands && !scoped && |p| > 1 && p[1] in env.index;
      f == if root in env.demands then if p[1] in env.demands[root] then Nested(p) else UnknownState(p)
           else if p == ["state"] then Crash(p)
           else if scoped then if p[2] in env.demands[KeyFor(env, p[1])] then Nested(p) else UnknownState(p)
           else if found && |env.index[p[1]]| == 1 then Nested(p)
           else if found && |env.index[p[1]]| > 1 then Ambiguous(p)
           else UnknownReference(p)
  {
    ResolvesIff(env, p, locals);
    if |p| == 1 {
      assert p == [p[0]];
    }
  }

  /** A path that starts at a local value goes on in what is known of that value, and is that. */
  lemma LocalPath(env: Env, p: Path, locals: Locals)
    requires p[0] in locals
    ensures ResolvePath(env, p, locals).Ok? <==> Ports.Resolve(locals[p[0]], p[1..]).Found?
    ensures ResolvePath(env, p, locals).Ok? ==>
              Ports.Found(ResolvePath(env, p, locals).value) == Ports.Resolve(locals[p[0]], p[1..])
  {
  }

  /** A call without arguments is accepted exactly if its dependency is there. */
  lemma CallAcceptedIff(env: Env, d: string, operation: Path, locals: Locals)
    ensures CheckCall(env, Call(d, operation, []), locals).None? <==> KeyFor(env, d) in env.keys
  {
  }

  // ---------------------------------------------------------------- a whole tree

  ghost predicate AllThere(env: Env, refs: set<Ref>, paths: set<Path>) {
    && (forall d, x :: ActionOf(d, x) in refs ==> KeyFor(env, d) in env.keys)
    && (forall p :: p in paths ==> Leads(env, p))
  }

  lemma AllThereTogether(env: Env, a: set<Ref>, p: set<Path>, b: set<Ref>, q: set<Path>)
    requires AllThere(env, a, p) && AllThere(env, b, q)
    ensures AllThere(env, a + b, p + q)
  {
  }

  lemma NothingThere(env: Env)
    ensures AllThere(env, {}, {})
  {
  }

  lemma OptPathAccepted(env: Env, path: Option<Path>, locals: Locals)
    requires PathFailure(env, path, locals).None?
    ensures AllThere(env, OptPathRefs(path, locals.Keys), OptPaths(path, locals.Keys))
  {
    if path.Some? && path.value[0] !in locals {
      ResolvesIff(env, path.value, locals);
    }
  }

  lemma {:induction false} ArgAccepted(env: Env, a: Argument, locals: Locals)
    requires CheckArg(env, a, locals).None?
    ensures AllThere(env, ArgRefs(a, locals.Keys), ArgPaths(a, locals.Keys))
    decreases a
  {
    OptPathAccepted(env, a.path, locals);
    if a.call.Some? {
      CallAccepted(env, a.call.value, locals);
    }
    if a.util.Some? {
      ArgsAccepted(env, a.util.value.args, locals);
    }
    ArgsAccepted(env, a.items, locals);
    ArgsAccepted(env, a.entries, locals);
  }

  lemma {:induction false} ArgsAccepted(env: Env, args: seq<Argument>, locals: Locals)
    requires CheckArgs(env, args, locals).None?
    ensures AllThere(env, ArgsRefs(args, locals.Keys), ArgsPaths(args, locals.Keys))
    decreases args
  {
    if args != [] {
      ArgsAccepted(env, args[..|args| - 1], locals);
      ArgAccepted(env, args[|args| - 1], locals);
    }
  }

  lemma {:induction false} CallAccepted(env: Env, c: Call, locals: Locals)
    requires CheckCall(env, c, locals).None?
    ensures AllThere(env, CallRefs(c, locals.Keys), ArgsPaths(c.args, locals.Keys))
    decreases c
  {
    ArgsAccepted(env, c.args, locals);
  }

  lemma PropAccepted(env: Env, p: Prop, locals: Locals)
    requires CheckProp(env, p, locals).None?
    ensures AllThere(env, PropRefs(p, locals.Keys), PropPaths(p, locals.Keys))
  {
    OptPathAccepted(env, p.dynamic, locals);
    if p.call.Some? {
      CallAccepted(env, p.call.value, locals);
    }
    if p.util.Some? {
      ArgsAccepted(env, p.util.value.args, locals);
    }
  }

  lemma {:induction false} PropsAccepted(env: Env, ps: seq<Prop>, locals: Locals)
    requires CheckProps(env, ps, locals).None?
    ensures AllThere(env, PropsRefs(ps, locals.Keys), PropsPaths(ps, locals.Keys))
  {
    if ps != [] {
      PropsAccepted(env, ps[..|ps| - 1], locals);
      PropAccepted(env, ps[|ps| - 1], locals);
    }
  }

  /** In an accepted tree every dependency that is called is there, and every path that does not start at a local value
      leads somewhere, at every depth. */
  lemma {:induction false} NodeAccepted(env: Env, n: Node, inherited: Locals)
    requires CheckNode(env, n, inherited).None?
    ensures AllThere(env, NodeRefs(n, inherited.Keys), NodePaths(n, inherited.Keys))
    decreases n
  {
    var locals := NodeLocals(env, n, inherited).value;
    LocalsAgree(env, n, inherited);
    PropsAccepted(env, n.props, locals);
    NodesAccepted(env, n.children, locals);
    AllThereTogether(env, PropsRefs(n.props, locals.Keys), PropsPaths(n.props, locals.Keys),
                     NodesRefs(n.children, locals.Keys), NodesPaths(n.children, locals.Keys));
  }

  lemma {:induction false} NodesAccepted(env: Env, ns: seq<Node>, locals: Locals)
    requires CheckNodes(env, ns, locals).None?
    ensures AllThere(env, NodesRefs(ns, locals.Keys), NodesPaths(ns, locals.Keys))
    decreases ns
  {
    if ns != [] {
      var n := |ns| - 1;
      NodesAccepted(env, ns[..n], locals);
      NodeAccepted(env, ns[n], locals);
      AllThereTogether(env, NodesRefs(ns[..n], locals.Keys), NodesPaths(ns[..n], locals.Keys),
                       NodeRefs(ns[n], locals.Keys), NodePaths(ns[n], locals.Keys));
    }
  }

  // ---------------------------------------------------------------- what the dependencies offer

  /** The states of a list with one key, in order. */
  function Matching(states: seq<StateDemand>, key: string): seq<StateDemand> {
    if states == [] then []
    else Matching(states[..|states| - 1], key) +
         if states[|states| - 1].key == key then [states[|states| - 1]] else []
  }

  function AllStates(deps: seq<Dependency>): seq<StateDemand> {
    if deps == [] then [] else AllStates(deps[..|deps| - 1]) + deps[|deps| - 1].states
  }

  lemma {:induction false} MatchingAppend(a: seq<StateDemand>, b: seq<StateDemand>, key: string)
    ensures Matching(a + b, key) == Matching(a, key) + Matching(b, key)
    decreases |b|
  {
    if b == [] {
      assert a + b == a;
    } else {
      var n := |b| - 1;
      assert (a + b)[..|a + b| - 1] == a + b[..n] && (a + b)[|a + b| - 1] == b[n];
      MatchingAppend(a, b[..n], key);
    }
  }

  lemma {:induction false} IndexedAll(index: map<string, seq<StateDemand>>, states: seq<StateDemand>, key: string)
    ensures GetOr(Indexed(index, states), key, []) == GetOr(index, key, []) + Matching(states, key)
  {
    if states == [] {
      assert GetOr(index, key, []) + [] == GetOr(index, key, []);
    } else {
      IndexedAll(index, states[..|states| - 1], key);
    }
  }

  /** A state key is looked up among the states of all dependencies. */
  lemma {:induction false} IndexIsAllStates(deps: seq<Dependency>, key: string)
    ensures GetOr(EnvOf(deps).index, key, []) == Matching(AllStates(deps), key)
  {
    if deps != [] {
      var n := |deps| - 1;
      IndexIsAllStates(deps[..n], key);
      IndexedAll(EnvOf(deps[..n]).index, deps[n].states, key);
      MatchingAppend(AllStates(deps[..n]), deps[n].states, key);
    }
  }

  /** The last dependency with a key. */
  ghost predicate LastWith(deps: seq<Dependency>, i: nat, key: string) {
    i < |deps| && deps[i].key == key && forall j :: i < j < |deps| ==> deps[j].key != key
  }

  ghost predicate LastApp(deps: seq<Dependency>, i: nat, app: string) {
    i < |deps| && deps[i].app == Some(app) && forall j :: i < j < |deps| ==> deps[j].app != Some(app)
  }

  ghost predicate HasKey(deps: seq<Dependency>, key: string) {
    exists i :: 0 <= i < |deps| && deps[i].key == key
  }

  ghost predicate HasApp(deps: seq<Dependency>, app: string) {
    exists i :: 0 <= i < |deps| && deps[i].app == Some(app)
  }

  lemma HasLast(deps: seq<Dependency>, name: string)
    requires deps != []
    ensures var front, last := deps[..|deps| - 1], deps[|deps| - 1];
      && (HasKey(deps, name) <==> HasKey(front, name) || last.key == name)
      && (HasApp(deps, name) <==> HasApp(front, name) || last.app == Some(name))
  {
    var n := |deps| - 1;
    assert forall i :: 0 <= i < n ==> deps[..n][i] == deps[i];
    if HasKey(deps[..n], name) {
      var i :| 0 <= i < n && deps[..n][i].key == name;
      assert deps[i].key == name;
    }
    if HasApp(deps[..n], name) {
      var i :| 0 <= i < n && deps[..n][i].app == Some(name);
      assert deps[i].app == Some(name);
    }
  }

  /** Exactly the keys of the dependencies are known, and exactly their apps stand for a key. */
  lemma {:induction false} EnvNames(deps: seq<Dependency>, name: string)
    ensures var env := EnvOf(deps);
      && (name in env.keys <==> HasKey(deps, name)) && (name in env.demands <==> HasKey(deps, name))
      && (name in env.aliases <==> HasApp(deps, name))
  {
    if deps != [] {
      HasLast(deps, name);
      EnvNames(deps[..|deps| - 1], name);
    }
  }

  /** What an app stands for is the key of a dependency. */
  lemma {:induction false} AppsNameKeys(deps: seq<Dependency>, app: string)
    requires app in EnvOf(deps).aliases
    ensures HasKey(deps, EnvOf(deps).aliases[app])
  {
    var n := |deps| - 1;
    HasLast(deps, EnvOf(deps).aliases[app]);
    if deps[n].app != Some(app) {
      AppsNameKeys(deps[..n], app);
    }
  }

  /** A key has the states of its last dependency. */
  lemma {:induction false} EnvStates(deps: seq<Dependency>, i: nat, key: string)
    requires LastWith(deps, i, key)
    ensures key in EnvOf(deps).demands && EnvOf(deps).demands[key] == ByKey(deps[i].states)
  {
    var n := |deps| - 1;
    if i < n {
      assert deps[n].key != key;
      assert forall j :: 0 <= j < n ==> deps[..n][j] == deps[j];
      EnvStates(deps[..n], i, key);
    }
  }

  /** An app stands for the key of its last dependency. */
  lemma {:induction false} EnvApps(deps: seq<Dependency>, i: nat, app: string)
    requires LastApp(deps, i, app)
    ensures app in EnvOf(deps).aliases && EnvOf(deps).aliases[app] == deps[i].key
  {
    var n := |deps| - 1;
    if i < n {
      assert deps[n].app != Some(app);
      assert forall j :: 0 <= j < n ==> deps[..n][j] == deps[j];
      EnvApps(deps[..n], i, app);
    }
  }

  lemma {:induction false} StateKeysKnown(states: seq<StateDemand>)
    ensures forall x :: x in ByKey(states) <==> exists i :: 0 <= i < |states| && states[i].key == x
  {
    if states != [] {
      var n := |states| - 1;
      StateKeysKnown(states[..n]);
      assert forall i :: 0 <= i < n ==> states[..n][i] == states[i];
    }
  }

  /** The last state with a key counts. */
  lemma {:induction false} LastStateCounts(states: seq<StateDemand>, i: nat)
    requires i < |states| && forall j :: i < j < |states| ==> states[j].key != states[i].key
    ensures states[i].key in ByKey(states) && ByKey(states)[states[i].key] == states[i]
  {
    var n := |states| - 1;
    if i < n {
      assert states[n].key != states[i].key;
      assert forall j :: 0 <= j < n ==> states[..n][j] == states[j];
      LastStateCounts(states[..n], i);
    }
  }

  /** A name stands for the key of a dependency exactly if it is one, or the app of one. */
  lemma NameKnownIff(deps: seq<Dependency>, name: string)
    ensures KeyFor(EnvOf(deps), name) in EnvOf(deps).keys <==> HasKey(deps, name) || HasApp(deps, name)
  {
    EnvNames(deps, name);
    EnvNames(deps, KeyFor(EnvOf(deps), name));
    if name in EnvOf(deps).aliases {
      AppsNameKeys(deps, name);
    }
  }

  /** An accepted component calls only dependencies that are there, by key or by app. */
  lemma AcceptedCalls(deps: seq<Dependency>, component: Node, d: string, x: string)
    requires CheckNode(EnvOf(deps), component, map[]).None? && ActionOf(d, x) in NodeRefs(component, {})
    ensures HasKey(deps, d) || HasApp(deps, d)
  {
    var none: Locals := map[];
    assert none.Keys == {};
    NodeAccepted(EnvOf(deps), component, none);
    NameKnownIff(deps, d);
  }

  /** Where the first segment of a path in an accepted component is not a local value but names a dependency, the second
      one names a state that this dependency must have. */
  lemma AcceptedStates(deps: seq<Dependency>, component: Node, p: Path, i: nat)
    requires CheckNode(EnvOf(deps), component, map[]).None? && p in NodePaths(component, {}) && |p| > 1
    requires LastWith(deps, i, KeyFor(EnvOf(deps), p[0]))
    ensures exists j :: 0 <= j < |deps[i].states| && deps[i].states[j].key == p[1]
  {
    var none: Locals := map[];
    assert none.Keys == {};
    NodeAccepted(EnvOf(deps), component, none);
    EnvStates(deps, i, KeyFor(EnvOf(deps), p[0]));
    StateKeysKnown(deps[i].states);
    assert Leads(EnvOf(deps), p);
  }

  // ---------------------------------------------------------------- the local values of a node

  predicate IsLet(p: Prop) {
    p.key == "let" && p.declares != ""
  }

  predicate IsItems(p: Prop) {
    p.key == "items" && p.dynamic.Some?
  }

  lemma {:induction false} FirstLet(ps: seq<Prop>, i: nat)
    requires i < |ps| && IsLet(ps[i]) && forall j :: 0 <= j < i ==> !IsLet(ps[j])
    ensures LetProp(ps) == Some(ps[i])
    decreases i
  {
    if i > 0 {
      FirstLet(ps[1..], i - 1);
    }
  }

  lemma {:induction false} FirstItems(ps: seq<Prop>, i: nat)
    requires i < |ps| && IsItems(ps[i]) && forall j :: 0 <= j < i ==> !IsItems(ps[j])
    ensures ItemsProp(ps) == Some(ps[i])
    decreases i
  {
    if i > 0 {
      FirstItems(ps[1..], i - 1);
    }
  }

  /** What a node declares is known by name only, and what it inherits stays as it is. */
  lemma {:induction false} DeclaredAreUnknown(ps: seq<Prop>, inherited: Locals)
    ensures var locals := WithDeclared(ps, inherited);
      && locals.Keys == inherited.Keys + Declared(ps)
      && forall k :: k in locals ==> locals[k] == if k in inherited then inherited[k] else None
  {
    if ps != [] {
      DeclaredAreUnknown(ps[..|ps| - 1], inherited);
    }
  }

  /** A ForEach over a path that leads to a list binds its value to the items of that list; over a path of which nothing
      is known it binds it to nothing known; and over anything else it fails. */
  lemma ForeachBinds(env: Env, n: Node, inherited: Locals, i: nat, j: nat)
    requires n.foreach
    requires i < |n.props| && IsLet(n.props[i]) && forall k :: 0 <= k < i ==> !IsLet(n.props[k])
    requires j < |n.props| && IsItems(n.props[j]) && forall k :: 0 <= k < j ==> !IsItems(n.props[k])
    ensures var locals, name := WithDeclared(n.props, inherited), n.props[i].declares;
      var over, result := ResolvePath(env, n.props[j].dynamic.value, locals), NodeLocals(env, n, inherited);
      match over
      case Err(f) => result == Err(f)
      case Ok(None) => result == Ok(locals[name := None])
      case Ok(Some(m)) =>
        if exists c :: m.children == [c] && c.key == Some("...") then
          result == Ok(locals[name := Some(m.children[0])])
        else
          result == Err(NotIterable(n.props[j].dynamic.value))
  {
    FirstLet(n.props, i);
    FirstItems(n.props, j);
    if var locals := WithDeclared(n.props, inherited); ResolvePath(env, n.props[j].dynamic.value, locals).Ok? {
      var m := ResolvePath(env, n.props[j].dynamic.value, WithDeclared(n.props, inherited)).value;
      if m.Some? && |m.value.children| == 1 {
        assert m.value.children == [m.value.children[0]];
      }
    }
  }

  /** Any other node just adds what it declares. */
  lemma OtherNodesDeclare(env: Env, n: Node, inherited: Locals)
    requires !n.foreach
    ensures NodeLocals(env, n, inherited) == Ok(WithDeclared(n.props, inherited))
  {
  }
}
