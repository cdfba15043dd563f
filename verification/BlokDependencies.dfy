/** The dependencies that a blok declares (`_build_dependencies_for_component`, rekuest_next/blok/registry.py), and
    validating the blok against them. */
module BlokDependencies {
  import opened Prelude
  import opened KeyOrder
  import opened Blok
  import opened BlokValidation

  /** What the app has registered: its actions, and the match trees of its states. */
  datatype Catalogue = Catalogue(actions: set<string>, states: map<string, seq<PortMatch>>)

  datatype BuildError = NeedsOneDependency | UnknownAction(key: string) | UnregisteredState(key: string)

  datatype Built = Built(deps: seq<Dependency>) | Failed(error: BuildError)

  function DependencyKeys(refs: set<Ref>): set<string> {
    set r | r in refs && !r.Unscoped? :: r.dependency
  }

  ghost predicate HasUnscoped(refs: set<Ref>) {
    exists x :: Unscoped(x) in refs
  }

  /** Everything referred to is registered, and states without a dependency have exactly one to go to. */
  ghost predicate CanBuild(refs: set<Ref>, cat: Catalogue) {
    && (HasUnscoped(refs) ==> |DependencyKeys(refs)| == 1)
    && (forall d, x :: ActionOf(d, x) in refs ==> x in cat.actions)
    && (forall d, x :: StateOf(d, x) in refs ==> x in cat.states)
    && (forall x :: Unscoped(x) in refs ==> x in cat.states)
  }

  /** The dependency lists, in order, exactly what the references ask of it. */
  ghost predicate Lists(refs: set<Ref>, cat: Catalogue, d: Dependency) {
    && d.app == None
    && StrictlyAscending(d.actions, k => k) && (forall x :: x in d.actions <==> ActionOf(d.key, x) in refs)
    && StrictlyAscending(StateKeys(d.states), k => k)
    && (forall x :: x in StateKeys(d.states) <==> StateOf(d.key, x) in refs || Unscoped(x) in refs)
    && (forall i :: 0 <= i < |d.states| ==>
          d.states[i].key in cat.states && d.states[i].matches == cat.states[d.states[i].key])
  }

  function StateKeys(states: seq<StateDemand>): seq<string> {
    seq(|states|, i requires 0 <= i < |states| => states[i].key)
  }

  function Keys(deps: seq<Dependency>): seq<string> {
    seq(|deps|, i requires 0 <= i < |deps| => deps[i].key)
  }

  /** One dependency for every key, in order. */
  ghost predicate Generates(refs: set<Ref>, cat: Catalogue, deps: seq<Dependency>) {
    && StrictlyAscending(Keys(deps), k => k) && (forall k :: k in Keys(deps) <==> k in DependencyKeys(refs))
    && (HasUnscoped(refs) ==> |deps| == 1)
    && forall i :: 0 <= i < |deps| ==> Lists(refs, cat, deps[i])
  }

  /** `sorted` of a set. */
  method Sorted(keys: set<string>) returns (r: seq<string>)
    ensures StrictlyAscending(r, k => k) && (forall k :: k in r <==> k in keys) && |r| == |keys|
  {
    var todo, all := keys, [];
    while todo != {}
      invariant todo <= keys && NoRepeats(all) && |all| + |todo| == |keys|
      invariant forall k :: k in all <==> k in keys && k !in todo
    {
      var k :| k in todo;
      all := all + [k];
      todo := todo - {k};
    }
    r := SortOn(all, k => k);
    SortedDistinctClimbs(all);
    forall k ensures k in r <==> k in keys {
      SortOnMembers(all, k => k, k);
    }
  }

  method StateDemands(keys: seq<string>, cat: Catalogue) returns (states: seq<StateDemand>, unknown: Option<string>)
    requires StrictlyAscending(keys, k => k)
    ensures unknown.None? <==> forall i :: 0 <= i < |keys| ==> keys[i] in cat.states
    ensures unknown.Some? ==> unknown.value in keys && unknown.value !in cat.states
    ensures unknown.None? ==>
              && StateKeys(states) == keys
              && forall i :: 0 <= i < |states| ==>
                   states[i].key in cat.states && states[i].matches == cat.states[states[i].key]
  {
    states, unknown := [], None;
    for i := 0 to |keys|
      invariant StateKeys(states) == keys[..i]
      invariant forall k :: 0 <= k < |states| ==>
                  states[k].key in cat.states && states[k].matches == cat.states[states[k].key]
      invariant forall k :: 0 <= k < i ==> keys[k] in cat.states
    {
      if keys[i] !in cat.states {
        return states, Some(keys[i]);
      }
      states := states + [StateDemand(keys[i], cat.states[keys[i]])];
    }
  }

  /** The dependency for one key. `states` already has the states that were not given a dependency. */
  method OneDependency(key: string, actions: set<string>, states: set<string>, cat: Catalogue)
    returns (d: Dependency, error: Option<BuildError>)
    ensures error.None? <==> actions <= cat.actions && states <= cat.states.Keys
    ensures error.None? ==>
              && d.key == key && d.app == None
              && StrictlyAscending(d.actions, k => k) && (forall x :: x in d.actions <==> x in actions)
              && StrictlyAscending(StateKeys(d.states), k => k)
              && (forall x :: x in StateKeys(d.states) <==> x in states)
              && forall i :: 0 <= i < |d.states| ==>
                   d.states[i].key in cat.states && d.states[i].matches == cat.states[d.states[i].key]
  {
    d := Dependency(key, None, [], []);
    var wanted := Sorted(actions);
    for i := 0 to |wanted|
      invariant forall k :: 0 <= k < i ==> wanted[k] in cat.actions
    {
      if wanted[i] !in cat.actions {
        return d, Some(UnknownAction(wanted[i]));
      }
    }
    assert forall x :: x in actions ==> x in wanted;
    var stateKeys := Sorted(states);
    var demands, unknown := StateDemands(stateKeys, cat);
    if unknown.Some? {
      return d, Some(UnregisteredState(unknown.value));
    }
    assert forall x :: x in states ==> x in stateKeys;
    return Dependency(key, None, wanted, demands), None;
  }

  /** The dictionaries hold the references, with the unscoped states already given to every dependency there is. */
  ghost predicate Holds(refs: set<Ref>, actions: map<string, set<string>>, states: map<string, set<string>>) {
    forall d, x :: d in DependencyKeys(refs) ==>
      && (x in GetOr(actions, d, {}) <==> ActionOf(d, x) in refs)
      && (x in GetOr(states, d, {}) <==> StateOf(d, x) in refs || Unscoped(x) in refs)
  }

  /** What each dependency needs is registered. */
  predicate Registered(cat: Catalogue, key: string, actions: map<string, set<string>>,
                       states: map<string, set<string>>)
  {
    GetOr(actions, key, {}) <= cat.actions && GetOr(states, key, {}) <= cat.states.Keys
  }

  lemma CanBuildIffRegistered(refs: set<Ref>, cat: Catalogue, actions: map<string, set<string>>,
                              states: map<string, set<string>>)
    requires Holds(refs, actions, states) && (HasUnscoped(refs) ==> |DependencyKeys(refs)| == 1)
    ensures CanBuild(refs, cat) <==> forall d :: d in DependencyKeys(refs) ==> Registered(cat, d, actions, states)
  {
    if CanBuild(refs, cat) {
      forall d | d in DependencyKeys(refs) ensures Registered(cat, d, actions, states) {
        forall x | x in GetOr(actions, d, {}) ensures x in cat.actions {
          assert ActionOf(d, x) in refs;
        }
        forall x | x in GetOr(states, d, {}) ensures x in cat.states {
          assert StateOf(d, x) in refs || Unscoped(x) in refs;
        }
      }
    }
    if forall d :: d in DependencyKeys(refs) ==> Registered(cat, d, actions, states) {
      forall d, x | ActionOf(d, x) in refs ensures x in cat.actions {
        assert d in DependencyKeys(refs) && Registered(cat, d, actions, states);
        assert x in GetOr(actions, d, {});
      }
      forall d, x | StateOf(d, x) in refs ensures x in cat.states {
        assert d in DependencyKeys(refs) && Registered(cat, d, actions, states);
        assert x in GetOr(states, d, {});
      }
      forall x | Unscoped(x) in refs ensures x in cat.states {
        var d :| d in DependencyKeys(refs);
        assert Registered(cat, d, actions, states) && x in GetOr(states, d, {});
      }
    }
  }

  /** The states with the unscoped ones given to the only dependency; `None` if there is not exactly one. */
  method Scoped(r: References) returns (states: Option<map<string, set<string>>>)
    requires r.Valid()
    ensures states.None? <==> HasUnscoped(r.refs) && |DependencyKeys(r.refs)| != 1
    ensures states.Some? ==> Holds(r.refs, r.actions, states.value)
  {
    KeysCollected(r);
    var keys := r.actions.Keys + r.states.Keys;
    if r.implicit == {} {
      return Some(r.states);
    }
    var x :| x in r.implicit;
    assert Unscoped(x) in r.refs;
    if |keys| != 1 {
      return None;
    }
    var k :| k in keys;
    OnlyOne(keys, k);
    return Some(Added(r.states, k, r.implicit));
  }

  lemma OnlyOne(keys: set<string>, k: string)
    requires |keys| == 1 && k in keys
    ensures keys == {k}
  {
    assert |keys - {k}| == 0;
  }

  lemma KeysCollected(r: References)
    requires r.Valid()
    ensures r.actions.Keys + r.states.Keys == DependencyKeys(r.refs)
  {
    forall d ensures d in r.actions.Keys + r.states.Keys <==> d in DependencyKeys(r.refs) {
      if d in r.actions {
        var x :| x in r.actions[d];
        assert In(r.actions, d, x) && ActionOf(d, x) in r.refs;
      }
      if d in r.states {
        var x :| x in r.states[d];
        assert In(r.states, d, x) && StateOf(d, x) in r.refs;
      }
      if d in DependencyKeys(r.refs) {
        var ref :| ref in r.refs && !ref.Unscoped? && ref.dependency == d;
        assert In(r.actions, d, ref.key) || In(r.states, d, ref.key) by {
          assert ref == ActionOf(d, ref.key) || ref == StateOf(d, ref.key);
        }
      }
    }
  }

  /** The dependencies of all keys in turn, up to the first that asks for something unregistered. */
  method AllDependencies(ghost refs: set<Ref>, keys: seq<string>, actions: map<string, set<string>>,
                         states: map<string, set<string>>, cat: Catalogue)
    returns (deps: seq<Dependency>, error: Option<BuildError>)
    requires Holds(refs, actions, states) && forall k :: k in keys <==> k in DependencyKeys(refs)
    ensures error.None? <==> forall d :: d in DependencyKeys(refs) ==> Registered(cat, d, actions, states)
    ensures error.None? ==> Keys(deps) == keys && forall i :: 0 <= i < |deps| ==> Lists(refs, cat, deps[i])
  {
    deps, error := [], None;
    for i := 0 to |keys|
      invariant error == None && Keys(deps) == keys[..i]
      invariant forall k :: 0 <= k < |deps| ==> Lists(refs, cat, deps[k])
      invariant forall k :: 0 <= k < i ==> Registered(cat, keys[k], actions, states)
    {
      assert keys[i] in DependencyKeys(refs);
      var d;
      d, error := OneDependency(keys[i], GetOr(actions, keys[i], {}), GetOr(states, keys[i], {}), cat);
      if error.Some? {
        assert !Registered(cat, keys[i], actions, states);
        return;
      }
      assert Lists(refs, cat, d);
      deps := deps + [d];
    }
    assert forall d :: d in DependencyKeys(refs) ==> d in keys;
  }

  /** `_build_dependencies_for_component`. */
  method BuildDependencies(component: Node, cat: Catalogue) returns (b: Built)
    ensures b.Built? <==> CanBuild(NodeRefs(component, {}), cat)
    ensures b.Built? ==> Generates(NodeRefs(component, {}), cat, b.deps)
  {
    var r := CollectComponent(component, {});
    var scoped := Scoped(r);
    if scoped.None? {
      return Failed(NeedsOneDependency);
    }
    KeysCollected(r);
    CanBuildIffRegistered(r.refs, cat, r.actions, scoped.value);
    var keys := Sorted(r.actions.Keys + r.states.Keys);
    var deps, error := AllDependencies(r.refs, keys, r.actions, scoped.value, cat);
    if error.Some? {
      return Failed(error.value);
    }
    assert |deps| == |Keys(deps)|;
    return Built(deps);
  }

  // ---------------------------------------------------------------- the environment of generated dependencies

  lemma {:induction false} ByKeyHas(states: seq<StateDemand>)
    ensures forall x :: x in ByKey(states) <==> x in StateKeys(states)
  {
    if states != [] {
      var n := |states| - 1;
      ByKeyHas(states[..n]);
      assert StateKeys(states) == StateKeys(states[..n]) + [states[n].key];
    }
  }

  lemma NoRepeatsFront(keys: seq<string>, last: string)
    requires NoRepeats(keys + [last])
    ensures NoRepeats(keys) && last !in keys
  {
    var all := keys + [last];
    forall i, j | 0 <= i < j < |keys| ensures keys[i] != keys[j] {
      assert all[i] != all[j];
    }
    forall i | 0 <= i < |keys| ensures keys[i] != last {
      assert all[i] != all[|keys|];
    }
  }

  lemma {:induction false} IndexedOnce(states: seq<StateDemand>)
    requires NoRepeats(StateKeys(states))
    ensures forall x :: |GetOr(Indexed(map[], states), x, [])| == if x in StateKeys(states) then 1 else 0
  {
    if states != [] {
      var n := |states| - 1;
      assert StateKeys(states) == StateKeys(states[..n]) + [states[n].key];
      NoRepeatsFront(StateKeys(states[..n]), states[n].key);
      IndexedOnce(states[..n]);
    }
  }

  lemma {:induction false} EnvKeys(deps: seq<Dependency>)
    requires forall i :: 0 <= i < |deps| ==> deps[i].app == None
    ensures var env := EnvOf(deps);
      && env.aliases == map[] && env.keys == env.demands.Keys
      && forall k :: k in env.keys <==> k in Keys(deps)
  {
    if deps != [] {
      var n := |deps| - 1;
      assert Keys(deps) == Keys(deps[..n]) + [deps[n].key];
      EnvKeys(deps[..n]);
    }
  }

  lemma {:induction false} EnvDemands(deps: seq<Dependency>, i: nat)
    requires NoRepeats(Keys(deps)) && i < |deps|
    ensures deps[i].key in EnvOf(deps).demands && EnvOf(deps).demands[deps[i].key] == ByKey(deps[i].states)
  {
    var n := |deps| - 1;
    assert Keys(deps) == Keys(deps[..n]) + [deps[n].key];
    if i < n {
      NoRepeatsFront(Keys(deps[..n]), deps[n].key);
      EnvDemands(deps[..n], i);
      assert Keys(deps[..n])[i] == deps[i].key;
    }
  }

  lemma AscendingDistinct(keys: seq<string>)
    requires StrictlyAscending(keys, k => k)
    ensures NoRepeats(keys)
  {
    forall i, j | 0 <= i < j < |keys| ensures keys[i] != keys[j] {
      BelowIrreflexive(keys[i]);
      assert Below((k => k)(keys[i]), (k => k)(keys[j]));
    }
  }

  /** Where the dependency of a key is among the generated ones. */
  lemma DependencyAt(refs: set<Ref>, cat: Catalogue, deps: seq<Dependency>, d: string) returns (i: nat)
    requires Generates(refs, cat, deps) && d in DependencyKeys(refs)
    ensures i < |deps| && deps[i].key == d && Lists(refs, cat, deps[i])
    ensures d in EnvOf(deps).demands
    ensures forall x :: x in EnvOf(deps).demands[d] <==> StateOf(d, x) in refs || Unscoped(x) in refs
  {
    i :| 0 <= i < |deps| && Keys(deps)[i] == d;
    AscendingDistinct(Keys(deps));
    EnvDemands(deps, i);
    assert Lists(refs, cat, deps[i]);
    ByKeyHas(deps[i].states);
  }

  lemma GeneratedCovers(refs: set<Ref>, cat: Catalogue, deps: seq<Dependency>)
    requires Generates(refs, cat, deps)
    ensures Covers(EnvOf(deps), refs)
  {
    var env := EnvOf(deps);
    GeneratedEnv(refs, cat, deps);
    forall d, x | ActionOf(d, x) in refs ensures d in env.keys {
      assert d in DependencyKeys(refs);
    }
    forall d, x | StateOf(d, x) in refs ensures d in env.demands && x in env.demands[d] {
      assert d in DependencyKeys(refs);
      var i := DependencyAt(refs, cat, deps, d);
    }
    forall x | Unscoped(x) in refs ensures |GetOr(env.index, x, [])| == 1 {
      UnscopedOnce(refs, cat, deps, x);
    }
  }

  lemma GeneratedEnv(refs: set<Ref>, cat: Catalogue, deps: seq<Dependency>)
    requires Generates(refs, cat, deps)
    ensures var env := EnvOf(deps);
      && env.aliases == map[] && env.keys == env.demands.Keys
      && forall k :: k in env.keys <==> k in DependencyKeys(refs)
  {
    forall i | 0 <= i < |deps| ensures deps[i].app == None {
      assert Lists(refs, cat, deps[i]);
    }
    EnvKeys(deps);
  }

  lemma UnscopedOnce(refs: set<Ref>, cat: Catalogue, deps: seq<Dependency>, x: string)
    requires Generates(refs, cat, deps) && Unscoped(x) in refs
    ensures |GetOr(EnvOf(deps).index, x, [])| == 1
  {
    assert Lists(refs, cat, deps[0]);
    AscendingDistinct(StateKeys(deps[0].states));
    IndexedOnce(deps[0].states);
    assert deps == [deps[0]] && deps[..0] == [];
  }

  /** A dependency of the references is called "state" or "utils" and takes the path over, without having the state
      of its second segment. */
  ghost predicate TakenOver(refs: set<Ref>, p: Path) {
    && p[0] in {"state", "utils"} && p[0] in DependencyKeys(refs)
    && |p| >= 2 && StateOf(p[0], p[1]) !in refs && Unscoped(p[1]) !in refs
  }

  lemma TakenOverIsShadowed(refs: set<Ref>, cat: Catalogue, deps: seq<Dependency>, p: Path)
    requires Generates(refs, cat, deps)
    ensures TakenOver(refs, p) <==> Shadowed(EnvOf(deps), p)
  {
    GeneratedEnv(refs, cat, deps);
    if p[0] in DependencyKeys(refs) {
      var i := DependencyAt(refs, cat, deps, p[0]);
    }
  }

  /** Some path of the component, not starting at a local value, is taken over. */
  ghost predicate HasTakenOver(component: Node) {
    exists p :: p in NodePaths(component, {}) && TakenOver(NodeRefs(component, {}), p)
  }

  /** A component against the dependencies generated for it: if none of its paths is taken over by a dependency called
      "state" or "utils", it can only fail by what is wrong with the tree itself, a nested tail that a state does not
      have, a ForEach over what is no list, or a path of one segment that names nothing; otherwise it fails. */
  lemma OwnDependenciesIff(component: Node, cat: Catalogue, deps: seq<Dependency>)
    requires Generates(NodeRefs(component, {}), cat, deps)
    ensures var failure := CheckNode(EnvOf(deps), component, map[]);
      if HasTakenOver(component) then failure.Some? else Harmless(failure)
  {
    var refs, env, locals: Locals := NodeRefs(component, {}), EnvOf(deps), map[];
    assert locals.Keys == {};
    GeneratedCovers(refs, cat, deps);
    if p :| p in NodePaths(component, {}) && TakenOver(refs, p) {
      TakenOverIsShadowed(refs, cat, deps, p);
      NodeShadowed(env, component, locals, p);
    } else {
      forall p | p in NodePaths(component, {}) ensures !Shadowed(env, p) {
        TakenOverIsShadowed(refs, cat, deps, p);
      }
      NodeFits(env, component, locals);
    }
  }

  /** In particular when no dependency has either name. */
  lemma OwnDependenciesSuffice(component: Node, cat: Catalogue, deps: seq<Dependency>)
    requires var refs := NodeRefs(component, {});
      && Generates(refs, cat, deps) && "state" !in DependencyKeys(refs) && "utils" !in DependencyKeys(refs)
    ensures Harmless(CheckNode(EnvOf(deps), component, map[]))
  {
    OwnDependenciesIff(component, cat, deps);
  }

  /** A component with such a path: it calls `state.go(state.lab.stage)`. */
  lemma ShadowedComponentFails(cat: Catalogue, deps: seq<Dependency>)
    requires Generates(NodeRefs(ShadowedComponent(), {}), cat, deps)
    ensures CheckNode(EnvOf(deps), ShadowedComponent(), map[]).Some?
  {
    var n, p: Path := ShadowedComponent(), ["state", "lab", "stage"];
    var c := n.props[0].call.value;
    assert n.props[..0] == [] && c.args[..0] == [];
    assert ArgsRefs(c.args, {}) == {StateOf("lab", "stage")} && ArgsPaths(c.args, {}) == {p};
    assert NodeRefs(n, {}) == {ActionOf("state", "go"), StateOf("lab", "stage")} && p in NodePaths(n, {});
    assert ActionOf("state", "go").dependency in DependencyKeys(NodeRefs(n, {}));
    OwnDependenciesIff(n, cat, deps);
  }

  function ShadowedComponent(): Node {
    var argument := Argument(Some(["state", "lab", "stage"]), None, None, [], []);
    Node(false, [Prop("onClick", "", None, Some(Call("state", ["go"], [argument])), None)], [])
  }
}
