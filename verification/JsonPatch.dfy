/** JSON Patch (section 4 of RFC 6902) for the three operations the observable state emits, and those emissions
    (`EventedDict`, `EventedList` and the attribute hook in rekuest_next/state/observable.py). */
module JsonPatch {
  import opened Prelude
  import opened JsonPointer

  datatype Json =
    | Null | Bool(b: bool) | Num(n: int) | Str(s: string) | Arr(items: seq<Json>) | Obj(fields: map<string, Json>)

  datatype Op = Add | Remove | Replace

  /** An operation on the member or element that `t` names. */
  function ApplyHere(c: Json, op: Op, t: string, v: Json): Option<Json> {
    match c
    case Obj(m) =>
      if op.Add? then Some(Obj(m[t := v]))
      else if t !in m then None
      else if op.Replace? then Some(Obj(m[t := v]))
      else Some(Obj(Without(m, t)))
    case Arr(xs) =>
      var i := if t == "-" && op.Add? then Some(|xs|) else ParseIndex(t);
      if i.None? then None
      else if op.Add? then (if i.value <= |xs| then Some(Arr(xs[..i.value] + [v] + xs[i.value..])) else None)
      else if i.value >= |xs| then None
      else if op.Replace? then Some(Arr(xs[i.value := v]))
      else Some(Arr(xs[..i.value] + xs[i.value + 1..]))
    case _ => None
  }

  /** The child that a token names, if there is one. */
  function Child(c: Json, t: string): Option<Json> {
    match c
    case Obj(m) => if t in m then Some(m[t]) else None
    case Arr(xs) => (match ParseIndex(t) case Some(i) => if i < |xs| then Some(xs[i]) else None case None => None)
    case _ => None
  }

  function WithChild(c: Json, t: string, child: Json): Json
    requires Child(c, t).Some?
  {
    match c
    case Obj(m) => Obj(m[t := child])
    case Arr(xs) => Arr(xs[ParseIndex(t).value := child])
  }

  /** `None` is a patch that cannot be applied. */
  function Apply(doc: Json, op: Op, tokens: seq<string>, v: Json): Option<Json>
    decreases tokens
  {
    if tokens == [] then (if op.Remove? then None else Some(v))
    else if |tokens| == 1 then ApplyHere(doc, op, tokens[0], v)
    else if Child(doc, tokens[0]).None? then None
    else
      var inner := Apply(Child(doc, tokens[0]).value, op, tokens[1..], v);
      if inner.None? then None else Some(WithChild(doc, tokens[0], inner.value))
  }

  function ApplyAt(doc: Json, op: Op, path: string, v: Json): Option<Json> {
    match Parse(path)
    case Some(tokens) => Apply(doc, op, tokens, v)
    case None => None
  }

  // ---------------------------------------------------------------- what a mutation emits

  /** The value at a path, and the document with another value there. */
  function At(doc: Json, tokens: seq<string>): Option<Json>
    decreases tokens
  {
    if tokens == [] then Some(doc)
    else if Child(doc, tokens[0]).None? then None
    else At(Child(doc, tokens[0]).value, tokens[1..])
  }

  function Put(doc: Json, tokens: seq<string>, v: Json): Json
    requires At(doc, tokens).Some?
    decreases tokens
  {
    if tokens == [] then v
    else WithChild(doc, tokens[0], Put(Child(doc, tokens[0]).value, tokens[1..], v))
  }

  datatype Mutation =
    | SetKey(key: string, v: Json) | DeleteKey(key: string) | SetAttr(key: string, v: Json)
    | SetItem(i: int, v: Json) | DeleteItem(i: int) | Pop(i: int) | Append(v: Json) | Insert(i: int, v: Json)

  /** Python's meaning of a possibly negative index. */
  function Normal(i: int, n: nat): int {
    if i < 0 then n + i else i
  }

  function Clamp(i: int, n: nat): nat {
    if Normal(i, n) < 0 then 0 else if Normal(i, n) > n then n else Normal(i, n)
  }

  /** The container after a mutation; `None` is Python raising. `pop` hands an index to Python that it has already made
      count from the start, so that one that is still negative counts from the end again. */
  function Mutated(c: Json, m: Mutation): Option<Json> {
    match (c, m)
    case (Obj(fields), SetKey(k, v)) => Some(Obj(fields[k := v]))
    case (Obj(fields), SetAttr(k, v)) => Some(Obj(fields[k := v]))
    case (Obj(fields), DeleteKey(k)) => if k in fields then Some(Obj(Without(fields, k))) else None
    case (Arr(xs), Append(v)) => Some(Arr(xs + [v]))
    case (Arr(xs), Insert(i, v)) => Some(Arr(xs[..Clamp(i, |xs|)] + [v] + xs[Clamp(i, |xs|)..]))
    case (Arr(xs), SetItem(i, v)) =>
      if 0 <= Normal(i, |xs|) < |xs| then Some(Arr(xs[Normal(i, |xs|) := v])) else None
    case (Arr(xs), DeleteItem(i)) => Deleted(xs, i)
    case (Arr(xs), Pop(i)) => Deleted(xs, Normal(i, |xs|))
    case _ => None
  }

  function Deleted(xs: seq<Json>, i: int): Option<Json> {
    var j := Normal(i, |xs|);
    if 0 <= j < |xs| then Some(Arr(xs[..j] + xs[j + 1..])) else None
  }

  /** `str(i)`. */
  function IntToken(i: int): string {
    if i < 0 then "-" + IndexToken(-i) else IndexToken(i)
  }

  datatype Patch = Patch(op: Op, path: string, value: Json)

  /** The patch published for a mutation of the container at `base`. Only `pop` and `insert` normalise their index
      first; an attribute is always published as replaced. */
  function Emitted(base: string, c: Json, m: Mutation): Patch
    requires Mutated(c, m).Some?
  {
    match m
    case SetKey(k, v) => Patch(if k in c.fields then Replace else Add, MakePath(base, k), v)
    case SetAttr(k, v) => Patch(Replace, MakePath(base, k), v)
    case DeleteKey(k) => Patch(Remove, MakePath(base, k), Null)
    case SetItem(i, v) => Patch(Replace, base + "/" + IntToken(i), v)
    case DeleteItem(i) => Patch(Remove, base + "/" + IntToken(i), Null)
    case Pop(i) => Patch(Remove, base + "/" + IntToken(Normal(i, |c.items|)), Null)
    case Append(v) => Patch(Add, base + "/-", v)
    case Insert(i, v) => Patch(Add, base + "/" + IntToken(Clamp(i, |c.items|)), v)
  }

  /** A mutation that is not an item set or deleted by a negative index or popped by one that counts past the front, nor
      an attribute the state did not have. */
  predicate Published(c: Json, m: Mutation) {
    match m
    case SetItem(i, _) => i >= 0
    case DeleteItem(i) => i >= 0
    case Pop(i) => c.Arr? && Normal(i, |c.items|) >= 0
    case SetAttr(k, _) => c.Obj? && k in c.fields
    case _ => true
  }

  // ---------------------------------------------------------------- what an index means

  /** A negative index counts from the end: -1 is the last item. Only `pop` publishes it as the place it means. */
  lemma FromTheEnd(base: string, xs: seq<Json>, k: int, v: Json)
    requires 1 <= k <= |xs|
    ensures var c, n := Arr(xs), |xs| - k;
      && Mutated(c, Pop(-k)) == Mutated(c, DeleteItem(-k)) == Some(Arr(xs[..n] + xs[n + 1..]))
      && Mutated(c, SetItem(-k, v)) == Some(Arr(xs[n := v]))
      && Emitted(base, c, Pop(-k)).path == base + "/" + IndexToken(n)
      && Emitted(base, c, DeleteItem(-k)).path == Emitted(base, c, SetItem(-k, v)).path == base + "/-" + IndexToken(k)
  {
    assert base + "/" + ("-" + IndexToken(k)) == base + "/-" + IndexToken(k);
  }

  lemma FromTheStart(base: string, xs: seq<Json>, n: nat, v: Json)
    requires n < |xs|
    ensures var c, path := Arr(xs), base + "/" + IndexToken(n);
      && Mutated(c, Pop(n)) == Mutated(c, DeleteItem(n)) == Some(Arr(xs[..n] + xs[n + 1..]))
      && Mutated(c, SetItem(n, v)) == Some(Arr(xs[n := v]))
      && Emitted(base, c, Pop(n)).path == Emitted(base, c, DeleteItem(n)).path == path
      && Emitted(base, c, SetItem(n, v)).path == path
  {
  }

  /** Anything else is an IndexError, save that `pop` counts once more from the end what counts past the front. */
  lemma OutOfRange(xs: seq<Json>, i: int, v: Json)
    requires i < -|xs| || i >= |xs|
    ensures Mutated(Arr(xs), DeleteItem(i)) == Mutated(Arr(xs), SetItem(i, v)) == None
    ensures Mutated(Arr(xs), Pop(i)).Some? <==> -2 * |xs| <= i < -|xs|
  {
  }

  /** `pop` does what deleting the item does, exactly if its index does not count past the front, by the length or
      less. */
  lemma PopDeletesIff(xs: seq<Json>, i: int)
    ensures Mutated(Arr(xs), Pop(i)) == Mutated(Arr(xs), DeleteItem(i)) <==> !(-2 * |xs| <= i < -|xs|)
  {
  }

  /** If it does, an item goes where a list would raise, and the patch cannot be applied. */
  lemma PopPastFront(base: string, xs: seq<Json>, k: int)
    requires 1 <= k <= |xs|
    ensures var c, m, n := Arr(xs), Pop(-|xs| - k), |xs| - k;
      && Mutated(c, m) == Some(Arr(xs[..n] + xs[n + 1..])) && Emitted(base, c, m).op == Remove
      && Emitted(base, c, m).path == base + "/-" + IndexToken(k)
      && ApplyHere(c, Remove, LastToken(c, m), Null) == None
  {
    NegativeToken(-k);
    assert base + "/" + ("-" + IndexToken(k)) == base + "/-" + IndexToken(k);
  }

  /** `insert` never fails: from the end it goes before the item it counts to, and what is too far goes to the front or
      to the back, as an append does. It publishes the place it found. */
  lemma InsertsBefore(base: string, xs: seq<Json>, i: int, v: Json)
    ensures var n := if i >= |xs| then |xs| else if i >= 0 then i else if i >= -|xs| then |xs| + i else 0;
      && Mutated(Arr(xs), Insert(i, v)) == Some(Arr(xs[..n] + [v] + xs[n..]))
      && Emitted(base, Arr(xs), Insert(i, v)) == Patch(Add, base + "/" + IndexToken(n), v)
    ensures Mutated(Arr(xs), Append(v)) == Some(Arr(xs + [v]))
    ensures Emitted(base, Arr(xs), Append(v)) == Patch(Add, base + "/-", v)
  {
  }

  /** A key is set or deleted alone, and published as added exactly if it was not there. */
  lemma OneKeyOnly(base: string, fields: map<string, Json>, k: string, v: Json)
    ensures var c := Obj(fields);
      && Mutated(c, SetKey(k, v)).Some? && Mutated(c, SetKey(k, v)).value.Obj?
      && (var after := Mutated(c, SetKey(k, v)).value.fields;
          && k in after && after[k] == v && after.Keys == fields.Keys + {k}
          && forall j :: j in fields && j != k ==> after[j] == fields[j])
      && Mutated(c, SetAttr(k, v)) == Mutated(c, SetKey(k, v))
      && (Emitted(base, c, SetKey(k, v)).op.Add? <==> k !in fields)
      && !Emitted(base, c, SetKey(k, v)).op.Remove? && Emitted(base, c, SetAttr(k, v)).op.Replace?
      && (Mutated(c, DeleteKey(k)).Some? <==> k in fields)
      && (k in fields ==>
            && Mutated(c, DeleteKey(k)).value.Obj?
            && var after := Mutated(c, DeleteKey(k)).value.fields;
               after.Keys == fields.Keys - {k} && forall j :: j in after ==> after[j] == fields[j])
  {
  }

  lemma {:induction false} ApplyInside(doc: Json, op: Op, p: seq<string>, t: string, v: Json)
    requires At(doc, p).Some?
    ensures var here := ApplyHere(At(doc, p).value, op, t, v);
      Apply(doc, op, p + [t], v) == if here.None? then None else Some(Put(doc, p, here.value))
    decreases p
  {
    if p == [] {
      assert p + [t] == [t];
    } else {
      assert (p + [t])[1..] == p[1..] + [t];
      ApplyInside(Child(doc, p[0]).value, op, p[1..], t, v);
    }
  }

  lemma NegativeToken(i: int)
    requires i < 0
    ensures ParseIndex(IntToken(i)) == None && IntToken(i) != "-"
    ensures '~' !in IntToken(i) && '/' !in IntToken(i)
  {
    IndexTokenDigits(-i);
    assert IntToken(i)[0] == '-';
  }

  /** The last token of an emitted path. */
  function LastToken(c: Json, m: Mutation): string
    requires Mutated(c, m).Some?
  {
    match m
    case SetKey(k, _) => k
    case SetAttr(k, _) => k
    case DeleteKey(k) => k
    case SetItem(i, _) => IntToken(i)
    case DeleteItem(i) => IntToken(i)
    case Pop(i) => IntToken(Normal(i, |c.items|))
    case Append(_) => "-"
    case Insert(i, _) => IntToken(Clamp(i, |c.items|))
  }

  lemma EmittedPathParses(base: string, c: Json, m: Mutation)
    requires Mutated(c, m).Some? && Parse(base).Some?
    ensures Parse(Emitted(base, c, m).path) == Some(Parse(base).value + [LastToken(c, m)])
  {
    var t := LastToken(c, m);
    if m.SetKey? || m.SetAttr? || m.DeleteKey? {
      MakePathParses(base, t);
    } else {
      if m.Append? {
        assert base + "/-" == base + "/" + t;
      } else {
        var i := if m.Pop? then Normal(m.i, |c.items|) else if m.Insert? then Clamp(m.i, |c.items|) else m.i;
        if i < 0 {
          NegativeToken(i);
        } else {
          IndexTokenDigits(i);
        }
      }
      UnescapePlain(t);
      TokenAppended(base, t);
    }
  }

  lemma EmittedHere(base: string, c: Json, m: Mutation)
    requires Mutated(c, m).Some?
    ensures var e := Emitted(base, c, m);
      ApplyHere(c, e.op, LastToken(c, m), e.value) == if Published(c, m) then Mutated(c, m) else None
  {
    match m
    case SetItem(i, _) => if i < 0 { NegativeToken(i); } else { IndexRoundTrip(i); }
    case DeleteItem(i) => if i < 0 { NegativeToken(i); } else { IndexRoundTrip(i); }
    case Pop(i) =>
      var j := Normal(i, |c.items|);
      if j < 0 { NegativeToken(j); } else { IndexRoundTrip(j); }
    case Insert(i, _) => IndexRoundTrip(Clamp(i, |c.items|)); IndexTokenDigits(Clamp(i, |c.items|));
    case Append(_) => assert c.items[..|c.items|] + [m.v] + c.items[|c.items|..] == c.items + [m.v];
    case _ =>
  }

  /** For a container that is where its stored path `base` says: applying the published patch to the whole document does
      to it exactly what the mutation did to the container, if the mutation is published properly; otherwise the patch
      cannot be applied at all. (`StalePaths` has the other places.) */
  lemma EmittedPatchMeansMutation(doc: Json, base: string, m: Mutation)
    requires Parse(base).Some? && At(doc, Parse(base).value).Some?
    requires Mutated(At(doc, Parse(base).value).value, m).Some?
    ensures var p := Parse(base).value;
      var c := At(doc, p).value;
      var e := Emitted(base, c, m);
      ApplyAt(doc, e.op, e.path, e.value) ==
        if Published(c, m) then Some(Put(doc, p, Mutated(c, m).value)) else None
  {
    var p := Parse(base).value;
    var c := At(doc, p).value;
    var e := Emitted(base, c, m);
    EmittedPathParses(base, c, m);
    ApplyInside(doc, e.op, p, LastToken(c, m), e.value);
    EmittedHere(base, c, m);
  }
}
