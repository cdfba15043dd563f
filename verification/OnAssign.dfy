/** What one assignment reports: `FunctionalActor.on_assign` (rekuest_next/actors/functional.py) over any number of
    results, when anything it calls may raise and any send may fail. */
module OnAssign {

  datatype Report<T> =
    | Progress | Yield(returned: T) | Log(text: string) | Completed | Failed | Critical

  predicate Terminal(r: Report) {
    r.Completed? || r.Failed? || r.Critical?
  }

  /** A value the callable gave: shrunk, or rejected with a SerializationError, or with any other exception. */
  datatype Outcome<T> = Result(shrunk: T) | SerializationFails | ShrinkRaises

  /** How everything that `on_assign` calls, except the sends, turns out. */
  datatype World<T> = World(locks: bool, expands: bool, locals: bool, results: seq<Outcome<T>>, bodyRaises: bool,
                            capture: bool, logs: seq<string>)

  function Join(texts: seq<string>): string {
    if texts == [] then "" else texts[0] + Join(texts[1..])
  }

  function Logs<T>(w: World<T>): seq<Report<T>> {
    if w.logs != [] && w.capture then [Log(Join(w.logs))] else []
  }

  /** What was captured is sent in one piece, in order. */
  lemma {:induction false} JoinAppends(a: seq<string>, b: seq<string>)
    ensures Join(a + b) == Join(a) + Join(b)
  {
    if a == [] {
      assert a + b == b;
    } else {
      assert (a + b)[1..] == a[1..] + b;
      JoinAppends(a[1..], b);
    }
  }

  lemma JoinOne(text: string)
    ensures Join([text]) == text && Join([]) == ""
  {
    assert [text][1..] == [];
  }

  // ---------------------------------------------------------------- what should be reported

  /** The results before the first that cannot be shrunk. */
  function Good<T>(results: seq<Outcome<T>>): (k: nat)
    ensures k <= |results|
    ensures forall i :: 0 <= i < k ==> results[i].Result?
    ensures k < |results| ==> !results[k].Result?
  {
    if results == [] || !results[0].Result? then 0 else 1 + Good(results[1..])
  }

  function Yields<T>(results: seq<Outcome<T>>): seq<Report<T>>
    requires forall i :: 0 <= i < |results| ==> results[i].Result?
  {
    seq(|results|, i requires 0 <= i < |results| => Yield(results[i].shrunk))
  }

  predicate Starts<T>(w: World<T>) {
    w.locks && w.expands && w.locals
  }

  /** A result was rejected while the callable ran. */
  predicate Rejected<T>(w: World<T>) {
    var k := Good(w.results);
    k < |w.results| && w.results[k].SerializationFails?
  }

  /** An exception other than a failing send reaches the handler. */
  predicate Excepts<T>(w: World<T>) {
    var k := Good(w.results);
    if k < |w.results| then w.results[k].ShrinkRaises? else w.bodyRaises
  }

  function Ending<T>(w: World<T>): seq<Report<T>> {
    if Rejected(w) then [Failed] else Logs(w) + [if Excepts(w) then Critical else Completed]
  }

  /** The reports when every send succeeds: progress, the results in order, and one terminal report. */
  function Normal<T>(w: World<T>): seq<Report<T>> {
    if Starts(w) then [Progress] + Yields(w.results[..Good(w.results)]) + Ending(w)
    else if w.locks && !w.expands then [Progress, Failed]
    else [Progress]
  }

  /** The number of the first send that fails, or `n` if none of the first `n` does. */
  function FirstFailure(sends: nat -> bool, n: nat): (j: nat)
    ensures j <= n && (forall i :: 0 <= i < j ==> sends(i)) && (j < n ==> !sends(j))
  {
    if n == 0 then 0
    else
      var j := FirstFailure(sends, n - 1);
      if j < n - 1 || !sends(j) then j else n
  }

  /** The sends whose failure the handler catches: those of the try block, not those of the handler itself. */
  predicate Caught<T>(w: World<T>, j: nat) {
    Starts(w) && j > 0 && (Excepts(w) ==> j <= Good(w.results))
  }

  /** What the handler reports, starting with send number `at`. */
  function Handled<T>(w: World<T>, sends: nat -> bool, at: nat): seq<Report<T>> {
    if Logs(w) != [] && !sends(at) then Logs(w) else Logs(w) + [Critical]
  }

  function Expected<T>(w: World<T>, sends: nat -> bool): seq<Report<T>> {
    var n, j := Normal(w), FirstFailure(sends, |Normal(w)|);
    if j == |n| then n else n[..j + 1] + if Caught(w, j) then Handled(w, sends, j + 1) else []
  }

  // ---------------------------------------------------------------- the pipeline

  lemma FirstIs(sends: nat -> bool, n: nat, j: nat)
    requires j <= n && (forall i :: 0 <= i < j ==> sends(i)) && (j < n ==> !sends(j))
    ensures FirstFailure(sends, n) == j
  {
  }

  lemma NormalParts<T>(w: World<T>)
    requires Starts(w)
    ensures var n, k := Normal(w), Good(w.results);
      && |n| == 1 + k + |Ending(w)| && n[..1] == [Progress] && n[1 + k..] == Ending(w)
      && forall i :: 0 <= i < k ==> n[1 + i] == Yield(w.results[i].shrunk)
  {
    var ys := Yields(w.results[..Good(w.results)]);
    assert Normal(w)[1..] == ys + Ending(w);
  }

  /** How the normal trace goes on after the first `i` results. */
  lemma NormalBegins<T>(w: World<T>, i: nat)
    requires Starts(w) && i <= Good(w.results)
    ensures var n, k := Normal(w), Good(w.results);
      && |n| > 1 + i && n[0] == Progress
      && (i < k ==> n[1 + i] == Yield(w.results[i].shrunk))
      && (i == k && Rejected(w) ==> |n| == 2 + i && n[1 + i] == Failed)
  {
    NormalParts(w);
    assert Normal(w)[..1][0] == Progress;
    if i == Good(w.results) {
      assert Normal(w)[1 + i] == Ending(w)[0];
    }
  }

  /** Sends the captured output, if there is any: false is an exception. */
  method FlushCapturedLogs<T>(w: World<T>, sends: nat -> bool, before: seq<Report<T>>)
    returns (sent: seq<Report<T>>, ok: bool)
    ensures sent == before + Logs(w) && ok == (Logs(w) == [] || sends(|before|))
  {
    sent, ok := before, true;
    if w.logs != [] && w.capture {
      sent := sent + [Log(Join(w.logs))];
      ok := sends(|before|);
    }
  }

  ghost predicate AllSent(sends: nat -> bool, n: int) {
    forall i :: 0 <= i < n ==> sends(i)
  }

  /** `sent` begins the normal trace, and only its last send may have failed. */
  ghost predicate SoFar<T>(w: World<T>, sends: nat -> bool, sent: seq<Report<T>>) {
    sent != [] && sent <= Normal(w) && AllSent(sends, |sent| - 1)
  }

  /** The loop over the results. `left` means that a rejected result was reported and the assignment is over. */
  method YieldResults<T>(w: World<T>, sends: nat -> bool) returns (sent: seq<Report<T>>, left: bool, ok: bool)
    requires Starts(w) && sends(0)
    ensures SoFar(w, sends, sent)
    ensures left ==> sent == Normal(w) && Rejected(w) && ok == sends(|sent| - 1)
    ensures !left && ok ==> |sent| == 1 + Good(w.results) && sends(|sent| - 1) && !Rejected(w) && !Excepts(w)
    ensures !left && !ok ==> |sent| <= 1 + Good(w.results)
    ensures !left && !ok && sends(|sent| - 1) ==> |sent| == 1 + Good(w.results) && Excepts(w)
  {
    ghost var k := Good(w.results);
    NormalBegins(w, 0);
    sent, left, ok := [Progress], false, true;
    var i := 0;
    while i < |w.results|
      invariant 0 <= i <= k
      invariant |sent| == 1 + i && sent <= Normal(w) && AllSent(sends, 1 + i)
    {
      NormalBegins(w, i);
      match w.results[i] {
        case SerializationFails =>
          sent := sent + [Failed];
          return sent, true, sends(|sent| - 1);
        case ShrinkRaises =>
          return sent, false, false;
        case Result(v) =>
          sent := sent + [Yield(v)];
          if !sends(|sent| - 1) {
            return sent, false, false;
          }
      }
      i := i + 1;
    }
    ok := !w.bodyRaises;
  }

  /** The try block: false is an exception, from a send that the handler catches or from the callable. */
  method TryBody<T>(w: World<T>, sends: nat -> bool) returns (sent: seq<Report<T>>, ok: bool)
    requires Starts(w) && sends(0)
    ensures SoFar(w, sends, sent)
    ensures ok ==> sent == Normal(w) && sends(|sent| - 1)
    ensures !ok && !sends(|sent| - 1) ==> Caught(w, |sent| - 1)
    ensures !ok && sends(|sent| - 1) ==> Excepts(w) && |sent| == 1 + Good(w.results)
  {
    NormalParts(w);
    var left;
    sent, left, ok := YieldResults(w, sends);
    if left || !ok {
      return;
    }
    assert Ending(w) == Logs(w) + [Completed];
    ghost var before := sent;
    sent, ok := FlushCapturedLogs(w, sends, sent);
    assert Normal(w) == before + Ending(w);
    assert Normal(w) == sent + [Completed];
    if ok {
      sent := sent + [Completed];
      ok := sends(|sent| - 1);
    }
  }

  /** What the handler's reports are appended to. */
  lemma ExceptedTrace<T>(w: World<T>, sends: nat -> bool, before: seq<Report<T>>)
    requires Starts(w) && SoFar(w, sends, before)
    requires !sends(|before| - 1) ==> Caught(w, |before| - 1)
    requires sends(|before| - 1) ==> Excepts(w) && |before| == 1 + Good(w.results)
    ensures Expected(w, sends) == before + Handled(w, sends, |before|)
  {
    if !sends(|before| - 1) {
      FirstIs(sends, |Normal(w)|, |before| - 1);
    } else {
      BodyExcepted(w, sends, before);
    }
  }

  /** A failure in the handler itself just cuts the normal trace. */
  lemma CutByHandler<T>(w: World<T>, sends: nat -> bool, j: nat)
    requires Starts(w) && Excepts(w) && Good(w.results) < j <= |Normal(w)|
    requires AllSent(sends, j) && (j < |Normal(w)| ==> !sends(j))
    ensures Expected(w, sends) == Normal(w)[..if j < |Normal(w)| then j + 1 else j]
  {
    FirstIs(sends, |Normal(w)|, j);
  }

  lemma BodyExcepted<T>(w: World<T>, sends: nat -> bool, before: seq<Report<T>>)
    requires Starts(w) && SoFar(w, sends, before) && sends(|before| - 1)
    requires Excepts(w) && |before| == 1 + Good(w.results)
    ensures Expected(w, sends) == before + Handled(w, sends, |before|)
  {
    var n := Normal(w);
    NormalParts(w);
    assert n == before + (Logs(w) + [Critical]);
    if Logs(w) != [] && !sends(|before|) {
      CutByHandler(w, sends, |before|);
      assert n[..|before| + 1] == before + Logs(w);
    } else {
      CutByHandler(w, sends, if sends(|n| - 1) then |n| else |n| - 1);
    }
  }

  /** `raised` tells whether an exception leaves `on_assign`, which nothing reports. */
  method OnAssign<T>(w: World<T>, sends: nat -> bool) returns (sent: seq<Report<T>>, raised: bool)
    ensures sent == Expected(w, sends)
    ensures (forall i :: 0 <= i < |sent| ==> sends(i)) ==> raised == !(w.locks && (w.expands ==> w.locals))
  {
    sent := [Progress];
    if !sends(0) || !w.locks {
      return sent, true;
    }
    if !w.expands {
      sent := sent + [Failed];
      return sent, !sends(1);
    }
    if !w.locals {
      return sent, true;
    }
    var ok;
    sent, ok := TryBody(w, sends);
    if ok {
      FirstIs(sends, |Normal(w)|, |Normal(w)|);
      return sent, false;
    }
    ghost var before := sent;
    ExceptedTrace(w, sends, before);
    sent, ok := FlushCapturedLogs(w, sends, sent);
    if !ok {
      return sent, true;
    }
    sent := sent + [Critical];
    raised := !sends(|sent| - 1);
  }

  // ---------------------------------------------------------------- the report grammar

  function Terminals<T>(rs: seq<Report<T>>): nat {
    if rs == [] then 0 else (if Terminal(rs[0]) then 1 else 0) + Terminals(rs[1..])
  }

  lemma {:induction false} TerminalsOf<T>(a: seq<Report<T>>, b: seq<Report<T>>)
    ensures Terminals(a + b) == Terminals(a) + Terminals(b)
  {
    if a == [] {
      assert a + b == b;
    } else {
      assert (a + b)[1..] == a[1..] + b;
      TerminalsOf(a[1..], b);
    }
  }

  lemma {:induction false} NoTerminals<T>(rs: seq<Report<T>>)
    requires forall i :: 0 <= i < |rs| ==> !Terminal(rs[i])
    ensures Terminals(rs) == 0
  {
    if rs != [] {
      NoTerminals(rs[1..]);
    }
  }

  /** Everything before the last normal report is not terminal. */
  lemma NormalEnds<T>(w: World<T>)
    ensures var n := Normal(w);
      && |n| > 0 && (forall i :: 0 <= i < |n| - 1 ==> !Terminal(n[i]))
      && (Terminal(n[|n| - 1]) <==> w.locks && (w.expands ==> w.locals))
  {
    if Starts(w) {
      NormalParts(w);
      var n, k := Normal(w), Good(w.results);
      forall i | 0 <= i < |n| - 1 ensures !Terminal(n[i]) {
        if i > k {
          assert n[i] == Ending(w)[i - 1 - k];
        } else if i > 0 {
          assert n[1 + (i - 1)] == Yield(w.results[i - 1].shrunk);
        }
      }
      assert n[|n| - 1] == Ending(w)[|Ending(w)| - 1];
    }
  }

  /** The grammar: when no send fails, an assignment that gets its locks and, if its inputs expand, its locals
      reports its progress, then each shrunk result in order, then at most one log, which only a Completed or
      Critical may follow, and then exactly one terminal report. */
  lemma ReportGrammar<T>(w: World<T>, sends: nat -> bool)
    requires AllSent(sends, |Normal(w)|) && w.locks && (w.expands ==> w.locals)
    ensures var rs, k := Expected(w, sends), if w.expands then Good(w.results) else 0;
      var terminal, log := rs[|rs| - 1], if w.expands && !Rejected(w) then Logs(w) else [];
      && rs == [Progress] + Yields(w.results[..k]) + log + [terminal]
      && Terminals(rs) == 1 && Terminal(terminal)
      && (terminal.Failed? <==> !w.expands || Rejected(w))
      && (terminal.Completed? <==> w.expands && k == |w.results| && !w.bodyRaises)
  {
    var n := Normal(w);
    FirstIs(sends, |n|, |n|);
    NormalEnds(w);
    NoTerminals(n[..|n| - 1]);
    assert n == n[..|n| - 1] + [n[|n| - 1]];
    TerminalsOf(n[..|n| - 1], [n[|n| - 1]]);
    if w.expands {
      NormalSplit(w);
    } else {
      assert n == [Progress] + Yields(w.results[..0]) + [] + [Failed];
    }
  }

  lemma NormalSplit<T>(w: World<T>)
    requires Starts(w)
    ensures var n := Normal(w);
      && n == [Progress] + Yields(w.results[..Good(w.results)]) + (if Rejected(w) then [] else Logs(w)) + [n[|n| - 1]]
      && n[|n| - 1] == if Rejected(w) then Failed else if Excepts(w) then Critical else Completed
  {
    var n, front := Normal(w), [Progress] + Yields(w.results[..Good(w.results)]);
    if Rejected(w) {
      assert n == front + [] + [Failed];
    } else {
      assert n == front + Logs(w) + [if Excepts(w) then Critical else Completed];
    }
  }

  /** Captured output is reported exactly if there is any, capturing was asked for, and the callable was called and no
      result of it rejected. */
  lemma LoggedIff<T>(w: World<T>, sends: nat -> bool)
    requires AllSent(sends, |Normal(w)|)
    ensures (exists text :: Log(text) in Expected(w, sends)) <==>
              w.logs != [] && w.capture && w.locks && w.expands && w.locals && !Rejected(w)
    ensures forall text :: Log(text) in Expected(w, sends) ==> text == Join(w.logs)
  {
    var n := Normal(w);
    FirstIs(sends, |n|, |n|);
    if Starts(w) {
      NormalSplit(w);
      if Logs(w) != [] && !Rejected(w) {
        assert n[1 + Good(w.results)] == Log(Join(w.logs));
        assert Log(Join(w.logs)) in n;
      }
    }
  }

  /** Locks and locals are taken outside the try block: with no failing send, an assignment ends without a terminal
      report exactly when its locks raise, or its inputs expand and `aget_locals` raises. */
  lemma NoTerminalIff<T>(w: World<T>, sends: nat -> bool)
    requires AllSent(sends, |Normal(w)|)
    ensures Terminals(Expected(w, sends)) == 0 <==> !w.locks || (w.expands && !w.locals)
  {
    var n := Normal(w);
    FirstIs(sends, |n|, |n|);
    NormalEnds(w);
    NoTerminals(n[..|n| - 1]);
    assert n == n[..|n| - 1] + [n[|n| - 1]];
    TerminalsOf(n[..|n| - 1], [n[|n| - 1]]);
  }

  lemma CutTerminals<T>(n: seq<Report<T>>, m: nat)
    requires m <= |n| && n != [] && forall i :: 0 <= i < |n| - 1 ==> !Terminal(n[i])
    ensures Terminals(n[..m]) == if m == |n| && Terminal(n[|n| - 1]) then 1 else 0
  {
    if m == |n| {
      assert n[..m] == n[..m - 1] + [n[m - 1]];
      NoTerminals(n[..m - 1]);
      TerminalsOf(n[..m - 1], [n[m - 1]]);
    } else {
      NoTerminals(n[..m]);
    }
  }

  lemma HandledTerminals<T>(w: World<T>, sends: nat -> bool, at: nat)
    ensures Terminals(Handled(w, sends, at)) == if Logs(w) != [] && !sends(at) then 0 else 1
  {
    NoTerminals(Logs(w));
    TerminalsOf(Logs(w), [Critical]);
  }

  lemma CountExpected<T>(w: World<T>, sends: nat -> bool)
    ensures var n, j := Normal(w), FirstFailure(sends, |Normal(w)|);
      Terminals(Expected(w, sends)) ==
        (if j + 1 >= |n| && n != [] && Terminal(n[|n| - 1]) then 1 else 0) +
        (if j < |n| && Caught(w, j) && (Logs(w) == [] || sends(j + 1)) then 1 else 0)
  {
    var n, j := Normal(w), FirstFailure(sends, |Normal(w)|);
    NormalEnds(w);
    CutTerminals(n, if j == |n| then j else j + 1);
    if j == |n| {
      assert n[..|n|] == n;
    } else {
      var more := if Caught(w, j) then Handled(w, sends, j + 1) else [];
      TerminalsOf(n[..j + 1], more);
      HandledTerminals(w, sends, j + 1);
    }
  }

  /** With failing sends there are never more than two terminal reports, and two exactly when the send of the last
      normal report, Completed or the Failed of a rejected result, raises and the handler's log, if any, is sent:
      the handler then adds a Critical. */
  lemma TwoTerminalsIff<T>(w: World<T>, sends: nat -> bool)
    ensures var n := Normal(w);
      && Terminals(Expected(w, sends)) <= 2
      && (Terminals(Expected(w, sends)) == 2 <==>
            && Starts(w) && !Excepts(w) && AllSent(sends, |n| - 1) && !sends(|n| - 1)
            && (Logs(w) != [] ==> sends(|n|)))
  {
    var n, j := Normal(w), FirstFailure(sends, |Normal(w)|);
    CountExpected(w, sends);
    NormalEnds(w);
    if Starts(w) {
      NormalParts(w);
    }
    if AllSent(sends, |n| - 1) && !sends(|n| - 1) {
      FirstIs(sends, |n|, |n| - 1);
    }
  }

  /** What is still reported after a failing send: nothing, unless the callable was called and what failed is a result,
      a Completed, the Failed of a rejected result, or a log that no exception had asked for; then what was captured
      and, if that can be sent, a Critical. */
  lemma AfterFailure<T>(w: World<T>, sends: nat -> bool, j: nat)
    requires j < |Normal(w)| && AllSent(sends, j) && !sends(j)
    ensures var n, rs := Normal(w), Expected(w, sends);
      && |rs| >= j + 1 && rs[..j + 1] == n[..j + 1]
      && (|rs| > j + 1 <==>
            Starts(w) && (n[j].Yield? || n[j].Completed? || n[j].Failed? || (n[j].Log? && !Excepts(w))))
      && (|rs| > j + 1 ==>
            rs[j + 1..] == if Logs(w) == [] then [Critical] else if sends(j + 1) then Logs(w) + [Critical] else Logs(w))
  {
    var n := Normal(w);
    FirstIs(sends, |n|, j);
    if Starts(w) {
      NormalParts(w);
      var k := Good(w.results);
      if j == 0 {
        assert n[..1][0] == n[0];
      } else if j <= k {
        assert n[1 + (j - 1)].Yield?;
      } else {
        assert n[j] == n[1 + k..][j - 1 - k];
      }
    }
  }
}
