/** The agent's outgoing report stream (`BaseAgent._adispatch`, the `EventAck` and `Init` branches of
    `BaseAgent.process` in rekuest_next/agents/base.py): terminal reports are retained until acknowledged and
    sent again on every reconnect. */
module ReportStream {
  import opened Prelude

  datatype Kind =
    | Completed | Failed | Critical | Cancelled | Interrupted            // terminal reports
    | Progress | Log | Yield | Paused | Resumed | Started                // other events of the stream
    | NotAnEvent                                                         // requests, registrations, ...

  datatype Report = Report(id: string, task: string, kind: Kind, seqNo: Option<nat>)

  predicate Terminal(k: Kind) {
    k.Completed? || k.Failed? || k.Critical? || k.Cancelled? || k.Interrupted?
  }

  /** `unacked` is an insertion-ordered dictionary: it holds each id once. `resending` is what the loop after an Init
      has still to send. `wire` is what the transport took. */
  datatype Stream = Stream(eventSeq: nat, unacked: seq<Report>, resending: seq<Report>, wire: seq<Report>)

  const FRESH := Stream(0, [], [], [])

  predicate HasId(rs: seq<Report>, id: string) {
    exists i :: 0 <= i < |rs| && rs[i].id == id
  }

  /** `dict[id] = report`: a new id goes to the end, a known one keeps its place. */
  function Put(rs: seq<Report>, r: Report): seq<Report> {
    if rs == [] then [r]
    else if rs[0].id == r.id then [r] + rs[1..]
    else [rs[0]] + Put(rs[1..], r)
  }

  /** A report that is kept already keeps its place. */
  lemma {:induction false} PutKeepsPlace(before: seq<Report>, kept: Report, after: seq<Report>, r: Report)
    requires kept.id == r.id && !HasId(before, r.id)
    ensures Put(before + [kept] + after, r) == before + [r] + after
  {
    var rs := before + [kept] + after;
    if before == [] {
      assert rs[0] == kept && rs[1..] == after;
    } else {
      assert rs[0] == before[0] && rs[1..] == before[1..] + [kept] + after;
      PutKeepsPlace(before[1..], kept, after, r);
    }
  }

  /** `dict.pop(id, None)`. */
  function Pop(rs: seq<Report>, id: string): seq<Report> {
    if rs == [] then [] else (if rs[0].id == id then [] else [rs[0]]) + Pop(rs[1..], id)
  }

  function Stamped(r: Report, n: nat): Report {
    if r.kind.NotAnEvent? then r else r.(seqNo := Some(n + 1))
  }

  /** `accepted` says whether the transport took the message or raised. */
  function Dispatched(s: Stream, r: Report, accepted: bool): Stream {
    var m := Stamped(r, s.eventSeq);
    Stream(if r.kind.NotAnEvent? then s.eventSeq else s.eventSeq + 1,
           if Terminal(r.kind) then Put(s.unacked, m) else s.unacked,
           s.resending,
           if accepted then s.wire + [m] else s.wire)
  }

  function Acked(s: Stream, id: string): Stream {
    s.(unacked := Pop(s.unacked, id))
  }

  /** An Init takes a copy of what is retained. */
  function Initiated(s: Stream): Stream {
    s.(resending := s.unacked)
  }

  /** One turn of the loop over the copy: a send that raises ends it. */
  function ResentNext(s: Stream, accepted: bool): Stream {
    if s.resending == [] then s
    else if accepted then s.(resending := s.resending[1..], wire := s.wire + [s.resending[0]])
    else s.(resending := [])
  }

  class AgentStream {
    var eventSeq: nat
    var unackedEvents: seq<Report>
    var resending: seq<Report>
    var wire: seq<Report>

    ghost function View(): Stream
      reads this
    {
      Stream(eventSeq, unackedEvents, resending, wire)
    }

    constructor ()
      ensures View() == FRESH
    {
      eventSeq, unackedEvents, resending, wire := 0, [], [], [];
    }

    method Dispatch(r: Report, accepted: bool)
      modifies this
      ensures View() == Dispatched(old(View()), r, accepted)
    {
      var m := r;
      if !r.kind.NotAnEvent? {
        eventSeq := eventSeq + 1;
        m := r.(seqNo := Some(eventSeq));
        if Terminal(m.kind) {
          unackedEvents := Put(unackedEvents, m);
        }
      }
      if accepted {
        wire := wire + [m];
      }
    }

    method EventAck(id: string)
      modifies this
      ensures View() == Acked(old(View()), id)
    {
      unackedEvents := Pop(unackedEvents, id);
    }

    method OnInit()
      modifies this
      ensures View() == Initiated(old(View()))
    {
      resending := unackedEvents;
    }

    /** Between two turns anything else may be dispatched or acknowledged. */
    method ResendNext(accepted: bool) returns (more: bool)
      modifies this
      ensures View() == ResentNext(old(View()), accepted)
      ensures more <==> resending != []
    {
      if resending != [] {
        if accepted {
          wire := wire + [resending[0]];
          resending := resending[1..];
        } else {
          resending := [];
        }
      }
      more := resending != [];
    }
  }

  // ---------------------------------------------------------------- over whole histories

  datatype Op = Dispatch(r: Report, accepted: bool) | Ack(id: string) | Init | Resend(accepted: bool)

  function Step(s: Stream, op: Op): Stream {
    match op
    case Dispatch(r, accepted) => Dispatched(s, r, accepted)
    case Ack(id) => Acked(s, id)
    case Init => Initiated(s)
    case Resend(accepted) => ResentNext(s, accepted)
  }

  function Run(s: Stream, ops: seq<Op>): Stream
    decreases ops
  {
    if ops == [] then s else Run(Step(s, ops[0]), ops[1..])
  }

  predicate AckedIn(ops: seq<Op>, id: string) {
    Ack(id) in ops
  }

  /** The reports of a history in dispatch order, the events among them numbered on from `n`. */
  function Numbered(ops: seq<Op>, n: nat): seq<Report> {
    if ops == [] then []
    else if ops[0].Dispatch? then
      [Stamped(ops[0].r, n)] + Numbered(ops[1..], if ops[0].r.kind.NotAnEvent? then n else n + 1)
    else Numbered(ops[1..], n)
  }

  /** The terminal reports dispatched in a history and not acknowledged later in it, in dispatch order. */
  function Retained(ops: seq<Op>, n: nat): seq<Report> {
    if ops == [] then []
    else if ops[0].Dispatch? then
      var r := ops[0].r;
      (if Terminal(r.kind) && !AckedIn(ops[1..], r.id) then [Stamped(r, n)] else []) +
      Retained(ops[1..], if r.kind.NotAnEvent? then n else n + 1)
    else Retained(ops[1..], n)
  }

  function StillUnacked(rs: seq<Report>, ops: seq<Op>): seq<Report> {
    if rs == [] then [] else
      (if AckedIn(ops, rs[0].id) then [] else [rs[0]]) + StillUnacked(rs[1..], ops)
  }

  /** Message ids are fresh: none is dispatched twice, or is one of `rs`. */
  ghost predicate FreshIds(rs: seq<Report>, ops: seq<Op>) {
    && (forall i, j :: 0 <= i < j < |ops| && ops[i].Dispatch? && ops[j].Dispatch? ==> ops[i].r.id != ops[j].r.id)
    && (forall i :: 0 <= i < |ops| && ops[i].Dispatch? ==> !HasId(rs, ops[i].r.id))
  }

  lemma {:induction false} PutFresh(rs: seq<Report>, r: Report)
    requires !HasId(rs, r.id)
    ensures Put(rs, r) == rs + [r]
  {
    if rs != [] {
      assert rs[0].id != r.id;
      forall i | 0 <= i < |rs[1..]| ensures rs[1..][i].id != r.id {
        assert rs[1..][i] == rs[i + 1];
      }
      PutFresh(rs[1..], r);
    }
  }

  lemma {:induction false} StillUnackedAppend(rs: seq<Report>, r: Report, ops: seq<Op>)
    ensures StillUnacked(rs + [r], ops) == StillUnacked(rs, ops) + (if AckedIn(ops, r.id) then [] else [r])
  {
    if rs == [] {
      assert [] + [r] == [r];
    } else {
      assert (rs + [r])[1..] == rs[1..] + [r];
      StillUnackedAppend(rs[1..], r, ops);
    }
  }

  lemma {:induction false} StillUnackedStep(rs: seq<Report>, op: Op, rest: seq<Op>)
    ensures StillUnacked(rs, [op] + rest) == StillUnacked(if op.Ack? then Pop(rs, op.id) else rs, rest)
  {
    if rs != [] {
      StillUnackedStep(rs[1..], op, rest);
      assert AckedIn([op] + rest, rs[0].id) <==> op == Ack(rs[0].id) || AckedIn(rest, rs[0].id);
      if op.Ack? {
        var popped := Pop(rs[1..], op.id);
        if rs[0].id == op.id {
          assert Pop(rs, op.id) == popped;
        } else {
          assert Pop(rs, op.id) == [rs[0]] + popped;
          assert Pop(rs, op.id)[0] == rs[0] && Pop(rs, op.id)[1..] == popped;
        }
      }
    }
  }

  lemma {:induction false} StillUnackedNil(rs: seq<Report>)
    ensures StillUnacked(rs, []) == rs
  {
    if rs != [] {
      StillUnackedNil(rs[1..]);
    }
  }

  lemma {:induction false} PopIds(rs: seq<Report>, id: string, k: string)
    ensures HasId(Pop(rs, id), k) ==> HasId(rs, k)
  {
    if rs != [] && HasId(Pop(rs, id), k) {
      PopIds(rs[1..], id, k);
      var popped := Pop(rs, id);
      var i :| 0 <= i < |popped| && popped[i].id == k;
      if rs[0].id != id && i == 0 {
        assert rs[0].id == k;
      } else {
        var j := if rs[0].id == id then i else i - 1;
        assert Pop(rs[1..], id)[j].id == k;
        var m :| 0 <= m < |rs[1..]| && rs[1..][m].id == k;
        assert rs[m + 1].id == k;
      }
    }
  }

  lemma FreshAfter(s: Stream, ops: seq<Op>)
    requires ops != [] && FreshIds(s.unacked, ops)
    ensures FreshIds(Step(s, ops[0]).unacked, ops[1..])
  {
    var s', rest := Step(s, ops[0]), ops[1..];
    forall i | 0 <= i < |rest| && rest[i].Dispatch? ensures !HasId(s'.unacked, rest[i].r.id) {
      assert rest[i] == ops[i + 1];
      assert !HasId(s.unacked, ops[i + 1].r.id);
      match ops[0]
      case Dispatch(r, _) =>
        assert !HasId(s.unacked, r.id);
        PutFresh(s.unacked, Stamped(r, s.eventSeq));
      case Ack(id) => PopIds(s.unacked, id, rest[i].r.id);
      case _ =>
    }
  }

  /** What is retained after any history is exactly what was retained before and is still not acknowledged, then
      the terminal reports dispatched and not acknowledged since, in dispatch order with their numbers. */
  lemma {:induction false} RetainedExactly(s: Stream, ops: seq<Op>)
    requires FreshIds(s.unacked, ops)
    ensures Run(s, ops).unacked == StillUnacked(s.unacked, ops) + Retained(ops, s.eventSeq)
    decreases ops
  {
    if ops == [] {
      StillUnackedNil(s.unacked);
    } else {
      FreshAfter(s, ops);
      RetainedExactly(Step(s, ops[0]), ops[1..]);
      RetainedStep(s, ops[0], ops[1..]);
      assert [ops[0]] + ops[1..] == ops;
    }
  }

  lemma RetainedStep(s: Stream, op: Op, rest: seq<Op>)
    requires op.Dispatch? ==> !HasId(s.unacked, op.r.id)
    ensures var s' := Step(s, op);
      StillUnacked(s'.unacked, rest) + Retained(rest, s'.eventSeq) ==
      StillUnacked(s.unacked, [op] + rest) + Retained([op] + rest, s.eventSeq)
  {
    match op
    case Dispatch(_, _) =>
      DispatchedParts(s, op);
      DispatchRetained(s.unacked, op, rest, s.eventSeq);
    case _ => QuietRetained(s, op, rest);
  }

  lemma DispatchedParts(s: Stream, op: Op)
    requires op.Dispatch?
    ensures Step(s, op).unacked == if Terminal(op.r.kind) then Put(s.unacked, Stamped(op.r, s.eventSeq)) else s.unacked
    ensures Step(s, op).eventSeq == if op.r.kind.NotAnEvent? then s.eventSeq else s.eventSeq + 1
  {
  }

  lemma QuietRetained(s: Stream, op: Op, rest: seq<Op>)
    requires !op.Dispatch?
    ensures var s' := Step(s, op);
      StillUnacked(s'.unacked, rest) + Retained(rest, s'.eventSeq) ==
      StillUnacked(s.unacked, [op] + rest) + Retained([op] + rest, s.eventSeq)
  {
    StillUnackedStep(s.unacked, op, rest);
    RetainedSkips(op, rest, s.eventSeq);
  }

  lemma RetainedSkips(op: Op, rest: seq<Op>, n: nat)
    requires !op.Dispatch?
    ensures Retained([op] + rest, n) == Retained(rest, n)
  {
    assert ([op] + rest)[1..] == rest;
  }

  lemma DispatchRetained(us: seq<Report>, op: Op, rest: seq<Op>, n: nat)
    requires op.Dispatch? && !HasId(us, op.r.id)
    ensures StillUnacked(if Terminal(op.r.kind) then Put(us, Stamped(op.r, n)) else us, rest) +
              Retained(rest, if op.r.kind.NotAnEvent? then n else n + 1) ==
            StillUnacked(us, [op] + rest) + Retained([op] + rest, n)
  {
    StillUnackedStep(us, op, rest);
    RetainedCons(op, rest, n);
    if Terminal(op.r.kind) {
      TerminalRetained(us, Stamped(op.r, n), rest, Retained(rest, n + 1));
    } else {
      var later := Retained(rest, if op.r.kind.NotAnEvent? then n else n + 1);
      assert [] + later == later;
    }
  }

  lemma TerminalRetained(us: seq<Report>, m: Report, rest: seq<Op>, later: seq<Report>)
    requires !HasId(us, m.id)
    ensures StillUnacked(Put(us, m), rest) + later ==
            StillUnacked(us, rest) + ((if AckedIn(rest, m.id) then [] else [m]) + later)
  {
    PutFresh(us, m);
    StillUnackedAppend(us, m, rest);
  }

  lemma RetainedCons(op: Op, rest: seq<Op>, n: nat)
    requires op.Dispatch?
    ensures Retained([op] + rest, n) ==
      (if Terminal(op.r.kind) && !AckedIn(rest, op.r.id) then [Stamped(op.r, n)] else []) +
      Retained(rest, if op.r.kind.NotAnEvent? then n else n + 1)
  {
    assert ([op] + rest)[1..] == rest;
  }

  /** Exactly the reports that end a task are retained. */
  lemma RetainedKinds(s: Stream, r: Report, accepted: bool)
    requires !HasId(s.unacked, r.id)
    ensures var s' := Step(s, Dispatch(r, accepted));
      if r.kind in {Completed, Failed, Critical, Cancelled, Interrupted} then
        s'.unacked == s.unacked + [r.(seqNo := Some(s.eventSeq + 1))]
      else
        s'.unacked == s.unacked
  {
    PutFresh(s.unacked, r.(seqNo := Some(s.eventSeq + 1)));
  }

  /** A message the transport took, and whether it was sent again for a reconnect. */
  datatype Sent = Sent(report: Report, again: bool)

  /** What one step puts on the wire. */
  function StepSends(s: Stream, op: Op): seq<Sent> {
    match op
    case Dispatch(r, accepted) => if accepted then [Sent(Stamped(r, s.eventSeq), false)] else []
    case Ack(_) => []
    case Init => []
    case Resend(accepted) => if accepted && s.resending != [] then [Sent(s.resending[0], true)] else []
  }

  /** What a whole history puts on the wire, in order. */
  function Sends(s: Stream, ops: seq<Op>): seq<Sent>
    decreases ops
  {
    if ops == [] then [] else StepSends(s, ops[0]) + Sends(Step(s, ops[0]), ops[1..])
  }

  function Reports(ms: seq<Sent>): seq<Report> {
    seq(|ms|, i requires 0 <= i < |ms| => ms[i].report)
  }

  /** The messages sent for the first time. */
  function FirstTime(ms: seq<Sent>): seq<Report> {
    if ms == [] then [] else (if ms[0].again then [] else [ms[0].report]) + FirstTime(ms[1..])
  }

  /** The dispatched reports that the transport took, numbered as in `Numbered`, in dispatch order. */
  function Accepted(ops: seq<Op>, n: nat): seq<Report> {
    if ops == [] then []
    else if ops[0].Dispatch? then
      (if ops[0].accepted then [Stamped(ops[0].r, n)] else []) +
      Accepted(ops[1..], if ops[0].r.kind.NotAnEvent? then n else n + 1)
    else Accepted(ops[1..], n)
  }

  lemma {:induction false} FirstTimeAppend(a: seq<Sent>, b: seq<Sent>)
    ensures FirstTime(a + b) == FirstTime(a) + FirstTime(b)
  {
    if a == [] {
      assert a + b == b;
    } else {
      assert (a + b)[1..] == a[1..] + b;
      FirstTimeAppend(a[1..], b);
    }
  }

  lemma StepWire(s: Stream, op: Op)
    ensures Step(s, op).wire == s.wire + Reports(StepSends(s, op))
    ensures FirstTime(StepSends(s, op)) == Accepted([op], s.eventSeq)
  {
    match op
    case Dispatch(r, accepted) =>
      assert [op][1..] == [];
      if accepted {
        var m := Sent(Stamped(r, s.eventSeq), false);
        assert [m][1..] == [] && Reports([m]) == [m.report];
      }
    case Resend(accepted) =>
      if accepted && s.resending != [] {
        var m := Sent(s.resending[0], true);
        assert [m][1..] == [] && Reports([m]) == [m.report];
      }
    case _ =>
  }

  lemma AcceptedCons(op: Op, rest: seq<Op>, n: nat)
    ensures Accepted([op] + rest, n) ==
      Accepted([op], n) + Accepted(rest, if op.Dispatch? && !op.r.kind.NotAnEvent? then n + 1 else n)
  {
    assert ([op] + rest)[1..] == rest && [op][1..] == [];
    if op.Dispatch? && op.accepted {
      assert [Stamped(op.r, n)] + [] == [Stamped(op.r, n)];
    }
  }

  /** Over every history the wire carries the accepted part of the dispatched reports, each with its number, in
      dispatch order and once, and between them nothing but what was sent again. */
  lemma {:induction false} WireIsAcceptedAndResent(s: Stream, ops: seq<Op>)
    ensures Run(s, ops).wire == s.wire + Reports(Sends(s, ops))
    ensures FirstTime(Sends(s, ops)) == Accepted(ops, s.eventSeq)
    decreases ops
  {
    if ops == [] {
      assert s.wire + [] == s.wire;
    } else {
      var op, rest := ops[0], ops[1..];
      var s' := Step(s, op);
      StepWire(s, op);
      WireIsAcceptedAndResent(s', rest);
      assert ops == [op] + rest;
      AcceptedCons(op, rest, s.eventSeq);
      assert s'.eventSeq == if op.Dispatch? && !op.r.kind.NotAnEvent? then s.eventSeq + 1 else s.eventSeq;
      JoinWire(s.wire, StepSends(s, op), Sends(s', rest));
    }
  }

  lemma JoinWire(wire: seq<Report>, now: seq<Sent>, later: seq<Sent>)
    ensures (wire + Reports(now)) + Reports(later) == wire + Reports(now + later)
    ensures FirstTime(now + later) == FirstTime(now) + FirstTime(later)
  {
    FirstTimeAppend(now, later);
    assert Reports(now + later) == Reports(now) + Reports(later);
  }

  /** Every message on the wire is one of the dispatched reports with the number it was first given, however
      often it is sent again: resending neither renumbers nor re-buffers. */
  lemma {:induction false} WireCarriesNumbered(s: Stream, ops: seq<Op>, known: seq<Report>)
    requires forall m :: m in s.unacked + s.resending ==> m in known
    requires forall m :: m in s.wire ==> m in known
    ensures forall m :: m in Run(s, ops).wire ==> m in known + Numbered(ops, s.eventSeq)
    decreases ops
  {
    if ops != [] {
      var s', op := Step(s, ops[0]), ops[0];
      var known' := if op.Dispatch? then known + [Stamped(op.r, s.eventSeq)] else known;
      match op {
        case Dispatch(r, _) => PutMembers(s.unacked, Stamped(r, s.eventSeq));
        case Ack(id) => PopMembers(s.unacked, id);
        case _ =>
      }
      WireCarriesNumbered(s', ops[1..], known');
      assert known' + Numbered(ops[1..], s'.eventSeq) == known + Numbered(ops, s.eventSeq);
    }
  }

  lemma {:induction false} PutMembers(rs: seq<Report>, r: Report)
    ensures forall m :: m in Put(rs, r) ==> m == r || m in rs
  {
    if rs != [] {
      PutMembers(rs[1..], r);
    }
  }

  lemma {:induction false} PopMembers(rs: seq<Report>, id: string)
    ensures forall m :: m in Pop(rs, id) <==> m in rs && m.id != id
  {
    if rs != [] {
      PopMembers(rs[1..], id);
    }
  }

  /** `rs` are numbered n + 1, n + 2, ... */
  ghost predicate NumberedFrom(rs: seq<Report>, n: nat) {
    forall i :: 0 <= i < |rs| ==> rs[i].seqNo.Some? && rs[i].seqNo.value == n + i + 1
  }

  /** The events of a history are numbered 1, 2, 3, ... in dispatch order. */
  lemma {:induction false} EventsNumberedFrom(ops: seq<Op>, n: nat)
    ensures NumberedFrom(Events(Numbered(ops, n)), n)
  {
    if ops != [] {
      if ops[0].Dispatch? {
        var n' := if ops[0].r.kind.NotAnEvent? then n else n + 1;
        EventsNumberedFrom(ops[1..], n');
        EventsCons(Stamped(ops[0].r, n), Numbered(ops[1..], n'));
      } else {
        EventsNumberedFrom(ops[1..], n);
      }
    }
  }

  /** In every run the events dispatched are numbered on from the stream's counter, without gaps, in dispatch order,
      whether the transport takes them or not, and the counter goes on with them. */
  lemma {:induction false} RunNumbersEvents(s: Stream, ops: seq<Op>)
    ensures NumberedFrom(Events(Numbered(ops, s.eventSeq)), s.eventSeq)
    ensures Run(s, ops).eventSeq == s.eventSeq + |Events(Numbered(ops, s.eventSeq))|
    decreases ops
  {
    EventsNumberedFrom(ops, s.eventSeq);
    if ops != [] {
      var s' := Step(s, ops[0]);
      RunNumbersEvents(s', ops[1..]);
      if ops[0].Dispatch? {
        EventsCons(Stamped(ops[0].r, s.eventSeq), Numbered(ops[1..], s'.eventSeq));
      }
    }
  }

  /** Every number is greater than the one before it, and the first one than `n`. */
  ghost predicate Climbing(rs: seq<Report>, n: nat) {
    rs == [] || (rs[0].seqNo.Some? && rs[0].seqNo.value > n && Climbing(rs[1..], rs[0].seqNo.value))
  }

  /** The events that reach the wire for the first time carry ever higher numbers. */
  lemma {:induction false} FirstNumbersClimb(ops: seq<Op>, n: nat)
    ensures Climbing(Events(Accepted(ops, n)), n)
    decreases ops
  {
    if ops != [] {
      if ops[0].Dispatch? {
        var n' := if ops[0].r.kind.NotAnEvent? then n else n + 1;
        var later := Accepted(ops[1..], n');
        FirstNumbersClimb(ops[1..], n');
        if ops[0].accepted {
          EventsCons(Stamped(ops[0].r, n), later);
          var e := Stamped(ops[0].r, n);
          assert [] + Events(later) == Events(later) && ([e] + Events(later))[1..] == Events(later);
        } else {
          assert [] + later == later;
        }
      } else {
        FirstNumbersClimb(ops[1..], n);
      }
    }
  }

  lemma EventsCons(r: Report, rs: seq<Report>)
    ensures Events([r] + rs) == (if r.kind.NotAnEvent? then [] else [r]) + Events(rs)
  {
    assert ([r] + rs)[1..] == rs;
  }

  function Events(rs: seq<Report>): seq<Report> {
    if rs == [] then [] else (if rs[0].kind.NotAnEvent? then [] else [rs[0]]) + Events(rs[1..])
  }

  /** The messages sent again. */
  function Again(ms: seq<Sent>): seq<Report> {
    if ms == [] then [] else (if ms[0].again then [ms[0].report] else []) + Again(ms[1..])
  }

  lemma {:induction false} AgainAppend(a: seq<Sent>, b: seq<Sent>)
    ensures Again(a + b) == Again(a) + Again(b)
  {
    if a == [] {
      assert a + b == b;
    } else {
      assert (a + b)[1..] == a[1..] + b;
      AgainAppend(a[1..], b);
      Join3(if a[0].again then [a[0].report] else [], Again(a[1..]), Again(b));
    }
  }

  lemma Join3(a: seq<Report>, b: seq<Report>, c: seq<Report>)
    ensures a + (b + c) == (a + b) + c
  {
  }

  /** No new Init, and no send of the loop that raises. */
  ghost predicate Undisturbed(ops: seq<Op>) {
    forall i :: 0 <= i < |ops| ==> !ops[i].Init? && ops[i] != Resend(false)
  }

  lemma TurnResends(s: Stream, op: Op)
    requires !op.Init? && op != Resend(false)
    ensures Again(StepSends(s, op)) + Step(s, op).resending == s.resending
  {
    var now := StepSends(s, op);
    if now != [] {
      assert now[1..] == [];
    }
  }

  /** Whatever comes between the turns of the loop, what it has sent and has still to send is the copy it took. */
  lemma {:induction false} ResendsCopy(s: Stream, ops: seq<Op>)
    requires Undisturbed(ops)
    ensures Again(Sends(s, ops)) + Run(s, ops).resending == s.resending
    decreases ops
  {
    if ops != [] {
      var now, later := StepSends(s, ops[0]), Sends(Step(s, ops[0]), ops[1..]);
      assert ops[0] != Resend(false) && !ops[0].Init?;
      TurnResends(s, ops[0]);
      ResendsCopy(Step(s, ops[0]), ops[1..]);
      AgainAppend(now, later);
      Join3(Again(now), Again(later), Run(s, ops).resending);
    }
  }

  /** A send that raises ends the loop: until the next Init nothing is sent again, and what is retained stays, but for
      what is acknowledged or dispatched. */
  lemma {:induction false} FailedResendEnds(s: Stream, ops: seq<Op>)
    requires forall i :: 0 <= i < |ops| ==> !ops[i].Init?
    ensures Again(Sends(Step(s, Resend(false)), ops)) == [] && Step(s, Resend(false)).unacked == s.unacked
  {
    NothingToResend(Step(s, Resend(false)), ops);
  }

  lemma {:induction false} NothingToResend(s: Stream, ops: seq<Op>)
    requires s.resending == [] && forall i :: 0 <= i < |ops| ==> !ops[i].Init?
    ensures Again(Sends(s, ops)) == []
    decreases ops
  {
    if ops != [] {
      assert !ops[0].Init? && forall i :: 0 <= i < |ops| - 1 ==> ops[1..][i] == ops[i + 1];
      NothingToResend(Step(s, ops[0]), ops[1..]);
      AgainAppend(StepSends(s, ops[0]), Sends(Step(s, ops[0]), ops[1..]));
      NothingAgain(s, ops[0]);
    }
  }

  lemma NothingAgain(s: Stream, op: Op)
    requires s.resending == []
    ensures Again(StepSends(s, op)) == []
  {
    if StepSends(s, op) != [] {
      assert StepSends(s, op)[1..] == [];
    }
  }

  /** Persist-then-ack: after any history on a fresh agent, a reconnect whose sends succeed puts every terminal report
      that was dispatched and never acknowledged on the wire again, in order and unchanged, whatever is dispatched and
      acknowledged between the sends; and the agent goes on retaining them until they are acknowledged. */
  lemma ReconnectResendsUnacked(ops: seq<Op>, later: seq<Op>)
    requires FreshIds([], ops) && Undisturbed(later) && Run(Step(Run(FRESH, ops), Init), later).resending == []
    ensures var s, lost := Step(Run(FRESH, ops), Init), Retained(ops, 0);
      && s.unacked == lost && s.wire == Run(FRESH, ops).wire
      && Again(Sends(s, later)) == lost
      && (FreshIds(lost, later) ==> Run(s, later).unacked == StillUnacked(lost, later) + Retained(later, s.eventSeq))
  {
    var s, lost := Step(Run(FRESH, ops), Init), Retained(ops, 0);
    RetainedExactly(FRESH, ops);
    assert [] + lost == lost;
    ResendsCopy(s, later);
    assert Again(Sends(s, later)) + [] == Again(Sends(s, later));
    if FreshIds(lost, later) {
      RetainedExactly(s, later);
    }
  }
}
