/** The order in which lock keys are sorted: Python compares strings code point by code point. */
module KeyOrder {

  predicate Below(a: string, b: string) {
    b != [] && (a == [] || a[0] < b[0] || (a[0] == b[0] && Below(a[1..], b[1..])))
  }

  lemma {:induction false} BelowIrreflexive(a: string)
    ensures !Below(a, a)
  {
    if a != [] {
      BelowIrreflexive(a[1..]);
    }
  }

  lemma {:induction false} BelowTransitive(a: string, b: string, c: string)
    requires Below(a, b) && Below(b, c)
    ensures Below(a, c)
  {
    if a != [] && a[0] == b[0] == c[0] {
      BelowTransitive(a[1..], b[1..], c[1..]);
    }
  }

  lemma {:induction false} BelowTotal(a: string, b: string)
    ensures a == b || Below(a, b) || Below(b, a)
  {
    if a != [] && b != [] && a[0] == b[0] {
      BelowTotal(a[1..], b[1..]);
      assert a == [a[0]] + a[1..] && b == [b[0]] + b[1..];
    }
  }

  ghost predicate Ascending<T>(xs: seq<T>, key: T -> string) {
    forall i, j :: 0 <= i < j < |xs| ==> !Below(key(xs[j]), key(xs[i]))
  }

  ghost predicate StrictlyAscending<T>(xs: seq<T>, key: T -> string) {
    forall i, j :: 0 <= i < j < |xs| ==> Below(key(xs[i]), key(xs[j]))
  }

  ghost predicate NoRepeats<T>(xs: seq<T>) {
    forall i, j :: 0 <= i < j < |xs| ==> xs[i] != xs[j]
  }

  /** Python's stable `sorted(xs, key=key)`. */
  function SortOn<T>(xs: seq<T>, key: T -> string): (r: seq<T>)
    ensures Ascending(r, key)
    ensures multiset(r) == multiset(xs)
    ensures |r| == |xs|
  {
    if xs == [] then
      []
    else
      var rest := SortOn(xs[1..], key);
      assert xs == [xs[0]] + xs[1..];
      InsertAscending(xs[0], rest, key);
      Insert(xs[0], rest, key)
  }

  /** Puts `x` before the first element whose key is not below its own. */
  function Insert<T>(x: T, xs: seq<T>, key: T -> string): (r: seq<T>)
    ensures multiset(r) == multiset{x} + multiset(xs)
    ensures |r| == |xs| + 1
  {
    if xs == [] then
      [x]
    else
      assert xs == [xs[0]] + xs[1..];
      if Below(key(xs[0]), key(x)) then [xs[0]] + Insert(x, xs[1..], key) else [x] + xs
  }

  /** Every element is no lower than `low`. */
  ghost predicate NoneBelow<T>(xs: seq<T>, key: T -> string, low: string) {
    forall i :: 0 <= i < |xs| ==> !Below(key(xs[i]), low)
  }

  lemma {:induction false} InsertNoneBelow<T>(x: T, xs: seq<T>, key: T -> string, low: string)
    requires !Below(key(x), low) && NoneBelow(xs, key, low)
    ensures NoneBelow(Insert(x, xs, key), key, low)
  {
    if xs != [] && Below(key(xs[0]), key(x)) {
      InsertNoneBelow(x, xs[1..], key, low);
    }
  }

  lemma {:induction false} InsertAscending<T>(x: T, xs: seq<T>, key: T -> string)
    requires Ascending(xs, key)
    ensures Ascending(Insert(x, xs, key), key)
  {
    if xs == [] {
    } else if Below(key(xs[0]), key(x)) {
      InsertAscending(x, xs[1..], key);
      BelowAsymmetric(key(xs[0]), key(x));
      InsertNoneBelow(x, xs[1..], key, key(xs[0]));
    } else {
      forall j | 0 <= j < |xs| ensures !Below(key(xs[j]), key(x)) {
        if Below(key(xs[j]), key(x)) {
          NotBelowTransitive(key(xs[j]), key(xs[0]), key(x));
        }
      }
    }
  }

  lemma BelowAsymmetric(a: string, b: string)
    requires Below(a, b)
    ensures !Below(b, a)
  {
    if Below(b, a) {
      BelowTransitive(a, b, a);
      BelowIrreflexive(a);
    }
  }

  /** `a < c` and `a >= b` give `b < c`. */
  lemma NotBelowTransitive(a: string, b: string, c: string)
    requires Below(a, c) && !Below(a, b)
    ensures Below(b, c)
  {
    BelowTotal(a, b);
    if a != b {
      BelowTransitive(b, a, c);
    }
  }

  /** Sorting neither adds nor drops anything. */
  lemma SortOnMembers<T>(xs: seq<T>, key: T -> string, x: T)
    ensures x in SortOn(xs, key) <==> x in xs
  {
    assert x in SortOn(xs, key) <==> x in multiset(SortOn(xs, key));
    assert x in xs <==> x in multiset(xs);
  }

  /** Distinct keys come out strictly climbing; repeated keys cannot. */
  lemma SortedDistinctClimbs(keys: seq<string>)
    requires NoRepeats(keys)
    ensures StrictlyAscending(SortOn(keys, k => k), k => k)
  {
    var s := SortOn(keys, k => k);
    RepeatsCounted(keys);
    forall i, j | 0 <= i < j < |s| ensures Below(s[i], s[j]) {
      if s[i] == s[j] {
        RepeatCountsTwice(s, i, j);
        assert false;
      }
      BelowTotal(s[i], s[j]);
      assert !Below((k => k)(s[j]), (k => k)(s[i]));
    }
  }

  lemma {:induction false} RepeatsCounted<T>(xs: seq<T>)
    requires NoRepeats(xs)
    ensures forall x :: multiset(xs)[x] <= 1
  {
    if xs != [] {
      assert xs == [xs[0]] + xs[1..];
      RepeatsCounted(xs[1..]);
      assert xs[0] !in multiset(xs[1..]);
    }
  }

  lemma RepeatCountsTwice<T>(xs: seq<T>, i: nat, j: nat)
    requires i < j < |xs| && xs[i] == xs[j]
    ensures multiset(xs)[xs[i]] >= 2
  {
    assert xs == xs[..j] + xs[j..];
    assert xs[..j][i] == xs[i] && xs[j..][0] == xs[i];
    assert xs[i] in multiset(xs[..j]) && xs[i] in multiset(xs[j..]);
    assert multiset(xs) == multiset(xs[..j]) + multiset(xs[j..]);
  }
}
