/** What a published patch does when the path stored in the mutated container is not where the container is: the
    document that results is never the one the mutation made. */
module StalePaths {
  import opened Prelude
  import opened JsonPointer
  import opened JsonPatch

  // ---------------------------------------------------------------- replacing one place of a document

  /** The same members, or the same length. */
  predicate SameFrame(x: Json, y: Json) {
    match x
    case Obj(m) => y.Obj? && y.fields.Keys == m.Keys
    case Arr(xs) => y.Arr? && |y.items| == |xs|
    case _ => x == y
  }

  lemma ChildOfWith(c: Json, t: string, v: Json, u: string)
    requires Child(c, t).Some?
    ensures SameFrame(c, WithChild(c, t, v))
    ensures Child(WithChild(c, t, v), u) == if u == t then Some(v) else Child(c, u)
  {
    if c.Arr? && ParseIndex(u).Some? && u != t {
      ParsedIndexIsToken(t);
      ParsedIndexIsToken(u);
    }
  }

  lemma ChildLess(c: Json, t: string)
    requires Child(c, t).Some?
    ensures Child(c, t).value < c
  {
  }

  lemma {:induction false} AtPut(doc: Json, p: seq<string>, x: Json)
    requires At(doc, p).Some?
    ensures At(Put(doc, p, x), p) == Some(x)
    decreases p
  {
    if p != [] {
      var d := Child(doc, p[0]).value;
      AtPut(d, p[1..], x);
      ChildOfWith(doc, p[0], Put(d, p[1..], x), p[0]);
    }
  }

  lemma {:induction false} AtLess(doc: Json, p: seq<string>)
    requires At(doc, p).Some?
    ensures At(doc, p).value == doc || At(doc, p).value < doc
    decreases p
  {
    if p != [] {
      ChildLess(doc, p[0]);
      AtLess(Child(doc, p[0]).value, p[1..]);
    }
  }

  lemma PutChanges(doc: Json, p: seq<string>, x: Json)
    requires At(doc, p).Some? && At(doc, p).value != x
    ensures Put(doc, p, x) != doc
  {
    AtPut(doc, p, x);
  }

  /** Whatever is put somewhere is in the result. */
  lemma PutHolds(doc: Json, p: seq<string>, x: Json, v: Json)
    requires At(doc, p).Some? && v < x
    ensures v < Put(doc, p, x)
  {
    AtPut(doc, p, x);
    AtLess(Put(doc, p, x), p);
  }

  // ---------------------------------------------------------------- what a mutation and a patch change

  lemma Holds(xs: seq<Json>, i: nat)
    requires i < |xs|
    ensures xs[i] < Arr(xs)
  {
  }

  lemma HoldsMember(m: map<string, Json>, k: string)
    requires k in m
    ensures m[k] < Obj(m)
  {
  }

  /** A patch that can be applied and takes nothing out puts its value in. */
  lemma PatchHolds(x: Json, op: Op, t: string, v: Json)
    requires !op.Remove? && ApplyHere(x, op, t, v).Some?
    ensures v < ApplyHere(x, op, t, v).value
  {
    var h := ApplyHere(x, op, t, v).value;
    match x
    case Obj(_) => HoldsMember(h.fields, t);
    case Arr(xs) =>
      var i := if t == "-" && op.Add? then |xs| else ParseIndex(t).value;
      assert h.items[i] == v;
      Holds(h.items, i);
    case _ =>
  }

  /** The same for a mutation. */
  lemma MutationHolds(c: Json, m: Mutation)
    requires Mutated(c, m).Some? && !Emitted("", c, m).op.Remove?
    ensures Emitted("", c, m).value < Mutated(c, m).value
  {
    var h, v := Mutated(c, m).value, Emitted("", c, m).value;
    match m
    case SetKey(k, _) => HoldsMember(h.fields, k);
    case SetAttr(k, _) => HoldsMember(h.fields, k);
    case SetItem(i, _) => Holds(h.items, Normal(i, |c.items|));
    case Append(_) => Holds(h.items, |c.items|);
    case Insert(i, _) =>
      assert h.items[Clamp(i, |c.items|)] == v;
      Holds(h.items, Clamp(i, |c.items|));
    case _ =>
  }

  /** A patch that keeps the frame only replaces the child it names, with its value. */
  lemma PatchInFrame(x: Json, op: Op, t: string, v: Json)
    requires ApplyHere(x, op, t, v).Some? && SameFrame(x, ApplyHere(x, op, t, v).value)
    ensures !op.Remove? && Child(x, t).Some? && ApplyHere(x, op, t, v).value == WithChild(x, t, v)
  {
    if x.Obj? {
      assert t !in Without(x.fields, t).Keys && t in x.fields[t := v].Keys;
    }
  }

  lemma DeleteBreaksFrame(c: Json, m: Mutation)
    requires Mutated(c, m).Some?
    ensures m.DeleteKey? ==> !SameFrame(c, Mutated(c, m).value)
  {
    if m.DeleteKey? {
      assert m.key !in Without(c.fields, m.key).Keys;
    }
  }

  /** A mutation that keeps the frame and changes something replaces one child with another value, and is published
      as a replacement. */
  lemma MutationInFrame(c: Json, m: Mutation) returns (t: string)
    requires Mutated(c, m).Some? && SameFrame(c, Mutated(c, m).value) && Mutated(c, m).value != c
    ensures var v := Emitted("", c, m).value;
      && !Emitted("", c, m).op.Remove?
      && Child(c, t).Some? && Child(c, t).value != v && Mutated(c, m).value == WithChild(c, t, v)
  {
    DeleteBreaksFrame(c, m);
    t := "";
    match m
    case SetKey(k, v) =>
      t := k;
      assert k in c.fields[k := v].Keys;
      assert c.fields[k := c.fields[k]] == c.fields;
    case SetAttr(k, v) =>
      t := k;
      assert k in c.fields[k := v].Keys;
      assert c.fields[k := c.fields[k]] == c.fields;
    case SetItem(i, v) =>
      t := IndexToken(Normal(i, |c.items|));
      IndexRoundTrip(Normal(i, |c.items|));
      assert c.items[Normal(i, |c.items|) := c.items[Normal(i, |c.items|)]] == c.items;
    case _ =>
  }

  // ---------------------------------------------------------------- two places

  /** The container is the document and the patch goes below it. */
  lemma BelowDiffers(doc: Json, q: seq<string>, m: Mutation)
    requires Mutated(doc, m).Some? && Mutated(doc, m).value != doc && q != [] && At(doc, q).Some?
    requires var e := Emitted("", doc, m); ApplyHere(At(doc, q).value, e.op, LastToken(doc, m), e.value).Some?
    ensures var e := Emitted("", doc, m);
      Put(doc, q, ApplyHere(At(doc, q).value, e.op, LastToken(doc, m), e.value).value) != Mutated(doc, m).value
  {
    var e := Emitted("", doc, m);
    var h := ApplyHere(At(doc, q).value, e.op, LastToken(doc, m), e.value).value;
    var d := Child(doc, q[0]).value;
    var below := Put(d, q[1..], h);
    ChildOfWith(doc, q[0], below, q[0]);
    if SameFrame(doc, Mutated(doc, m).value) {
      var t := MutationInFrame(doc, m);
      ChildOfWith(doc, t, e.value, t);
      ChildOfWith(doc, q[0], below, t);
      if q[0] == t {
        PatchHolds(At(doc, q).value, e.op, LastToken(doc, m), e.value);
        PutHolds(d, q[1..], h, e.value);
      }
    }
  }

  /** The patch goes to the document and the container is below it. */
  lemma AboveDiffers(doc: Json, p: seq<string>, m: Mutation)
    requires p != [] && At(doc, p).Some?
    requires var c := At(doc, p).value;
      && Mutated(c, m).Some? && Mutated(c, m).value != c
      && ApplyHere(doc, Emitted("", c, m).op, LastToken(c, m), Emitted("", c, m).value).Some?
    ensures var c := At(doc, p).value;
      ApplyHere(doc, Emitted("", c, m).op, LastToken(c, m), Emitted("", c, m).value).value !=
        Put(doc, p, Mutated(c, m).value)
  {
    var c := At(doc, p).value;
    var e, t := Emitted("", c, m), LastToken(c, m);
    var d := Child(doc, p[0]).value;
    var below := Put(d, p[1..], Mutated(c, m).value);
    PutChanges(d, p[1..], Mutated(c, m).value);
    ChildOfWith(doc, p[0], below, p[0]);
    if SameFrame(doc, ApplyHere(doc, e.op, t, e.value).value) {
      PatchInFrame(doc, e.op, t, e.value);
      ChildOfWith(doc, t, e.value, p[0]);
      if t == p[0] {
        MutationHolds(c, m);
        PutHolds(d, p[1..], Mutated(c, m).value, e.value);
      }
    }
  }

  /** A patch applied anywhere but where the container is never gives what the mutation gives. */
  lemma {:induction false} ElsewhereDiffers(doc: Json, p: seq<string>, q: seq<string>, m: Mutation)
    requires p != q && At(doc, p).Some? && At(doc, q).Some?
    requires var c := At(doc, p).value;
      && Mutated(c, m).Some? && Mutated(c, m).value != c
      && ApplyHere(At(doc, q).value, Emitted("", c, m).op, LastToken(c, m), Emitted("", c, m).value).Some?
    ensures var c := At(doc, p).value;
      var h := ApplyHere(At(doc, q).value, Emitted("", c, m).op, LastToken(c, m), Emitted("", c, m).value).value;
      Put(doc, q, h) != Put(doc, p, Mutated(c, m).value)
    decreases p
  {
    var c := At(doc, p).value;
    var h := ApplyHere(At(doc, q).value, Emitted("", c, m).op, LastToken(c, m), Emitted("", c, m).value).value;
    if p == [] {
      BelowDiffers(doc, q, m);
    } else if q == [] {
      AboveDiffers(doc, p, m);
    } else {
      var d := Child(doc, p[0]).value;
      var there, here := Put(Child(doc, q[0]).value, q[1..], h), Put(d, p[1..], Mutated(c, m).value);
      ChildOfWith(doc, p[0], here, p[0]);
      ChildOfWith(doc, q[0], there, p[0]);
      if p[0] == q[0] {
        assert p == [p[0]] + p[1..] && q == [q[0]] + q[1..];
        ElsewhereDiffers(d, p[1..], q[1..], m);
      } else {
        PutChanges(d, p[1..], Mutated(c, m).value);
      }
    }
  }

  lemma EmittedAnywhere(base: string, c: Json, m: Mutation)
    requires Mutated(c, m).Some?
    ensures Emitted(base, c, m).op == Emitted("", c, m).op && Emitted(base, c, m).value == Emitted("", c, m).value
  {
  }

  /** Applying the published patch does to the document what a mutation that changes something did to the container at
      `p`, if and only if the mutation is published properly and the container's stored path is where it is. */
  lemma PatchMeansMutationIff(doc: Json, p: seq<string>, base: string, m: Mutation)
    requires At(doc, p).Some? && Parse(base).Some?
    requires var c := At(doc, p).value; Mutated(c, m).Some? && Mutated(c, m).value != c
    ensures var c := At(doc, p).value;
      var e := Emitted(base, c, m);
      ApplyAt(doc, e.op, e.path, e.value) == Some(Put(doc, p, Mutated(c, m).value)) <==>
        Published(c, m) && Parse(base).value == p
  {
    var c, q := At(doc, p).value, Parse(base).value;
    var e, t := Emitted(base, c, m), LastToken(At(doc, p).value, m);
    if q == p {
      EmittedPatchMeansMutation(doc, base, m);
    } else {
      EmittedPathParses(base, c, m);
      EmittedAnywhere(base, c, m);
      ApplyAnywhere(doc, e.op, q, t, e.value);
      if At(doc, q).Some? && ApplyHere(At(doc, q).value, e.op, t, e.value).Some? {
        ElsewhereDiffers(doc, p, q, m);
      }
    }
  }

  lemma {:induction false} ApplyAnywhere(doc: Json, op: Op, q: seq<string>, t: string, v: Json)
    ensures Apply(doc, op, q + [t], v) ==
      if At(doc, q).None? || ApplyHere(At(doc, q).value, op, t, v).None? then None
      else Some(Put(doc, q, ApplyHere(At(doc, q).value, op, t, v).value))
    decreases q
  {
    if q == [] {
      assert q + [t] == [t];
    } else {
      assert (q + [t])[1..] == q[1..] + [t];
      if Child(doc, q[0]).Some? {
        ApplyAnywhere(Child(doc, q[0]).value, op, q[1..], t, v);
      }
    }
  }
}
