/** `GraphQLPostman` (rekuest_next/postmans/graphql.py): one change feed, one queue per reference.

    Feed events name only their task. The reference a task belongs to is learnt from a create notice or from
    the HTTP reply, whichever comes first; until then its events are kept as orphans. */
module FeedPostman {
  import opened Prelude
  import opened RemoteCall

  datatype Change = Change(task: string, body: TaskEvent)

  datatype Post = Post(
    queues: map<string, seq<Change>>,
    taskToReference: map<string, string>,
    referenceToTask: map<string, string>,
    orphans: map<string, seq<Change>>)

  const FRESH := Post(map[], map[], map[], map[])

  function Bound(p: Post, task: string, reference: string): Post {
    p.(taskToReference := p.taskToReference[task := reference],
       referenceToTask := p.referenceToTask[reference := task],
       orphans := Without(p.orphans, task),
       queues := if reference in p.queues then
                   p.queues[reference := p.queues[reference] + GetOr(p.orphans, task, [])]
                 else p.queues)
  }

  function Routed(p: Post, e: Change): Post {
    if e.task in p.taskToReference && p.taskToReference[e.task] in p.queues then
      var r := p.taskToReference[e.task];
      p.(queues := p.queues[r := p.queues[r] + [e]])
    else
      p.(orphans := p.orphans[e.task := GetOr(p.orphans, e.task, []) + [e]])
  }

  function CleanedUp(p: Post, reference: string): Post {
    var q := p.(queues := Without(p.queues, reference), referenceToTask := Without(p.referenceToTask, reference));
    if reference in p.referenceToTask then
      var task := p.referenceToTask[reference];
      q.(taskToReference := Without(p.taskToReference, task), orphans := Without(p.orphans, task))
    else
      q
  }

  class GraphQLPostman {
    var queues: map<string, seq<Change>>
    var taskToReference: map<string, string>
    var referenceToTask: map<string, string>
    var orphanEventsByTask: map<string, seq<Change>>

    ghost function View(): Post
      reads this
    {
      Post(queues, taskToReference, referenceToTask, orphanEventsByTask)
    }

    constructor ()
      ensures View() == FRESH
    {
      queues, taskToReference, referenceToTask, orphanEventsByTask := map[], map[], map[], map[];
    }

    /** The start of `aassign`: an empty reference is refused. */
    method OpenQueue(reference: string) returns (ok: bool)
      modifies this
      ensures ok <==> reference != ""
      ensures View() == if ok then old(View()).(queues := old(queues)[reference := []]) else old(View())
    {
      ok := reference != "";
      if ok {
        queues := queues[reference := []];
      }
    }

    method Bind(task: string, reference: string)
      modifies this
      ensures View() == Bound(old(View()), task, reference)
    {
      taskToReference := taskToReference[task := reference];
      referenceToTask := referenceToTask[reference := task];
      var orphans := GetOr(orphanEventsByTask, task, []);
      orphanEventsByTask := Without(orphanEventsByTask, task);
      if reference in queues {
        ghost var before := queues;
        assert before[reference] + orphans[..0] == before[reference];
        for i := 0 to |orphans|
          invariant queues == before[reference := before[reference] + orphans[..i]]
          invariant View() == Bound(old(View()), task, reference).(queues := queues)
        {
          assert before[reference] + orphans[..i + 1] == queues[reference] + [orphans[i]];
          queues := queues[reference := queues[reference] + [orphans[i]]];
        }
        assert orphans[..|orphans|] == orphans;
      }
    }

    /** One change of the watched feed: bind on `create`, then route on `event`. */
    method Watch(create: Option<(string, string)>, event: Option<Change>)
      modifies this
      ensures var bound := if create.Some? && create.value.1 != "" then
                             Bound(old(View()), create.value.0, create.value.1)
                           else old(View());
        View() == if event.Some? then Routed(bound, event.value) else bound
    {
      if create.Some? && create.value.1 != "" {
        Bind(create.value.0, create.value.1);
      }
      if event.Some? {
        var e := event.value;
        if e.task in taskToReference && taskToReference[e.task] in queues {
          var r := taskToReference[e.task];
          queues := queues[r := queues[r] + [e]];
        } else {
          orphanEventsByTask := orphanEventsByTask[e.task := GetOr(orphanEventsByTask, e.task, []) + [e]];
        }
      }
    }

    /** One `queue.get()`. */
    method NextEvent(reference: string) returns (e: Change)
      requires reference in queues && queues[reference] != []
      modifies this
      ensures e == old(queues)[reference][0]
      ensures View() == old(View()).(queues := old(queues)[reference := old(queues)[reference][1..]])
    {
      e := queues[reference][0];
      queues := queues[reference := queues[reference][1..]];
    }

    method CleanupReference(reference: string)
      modifies this
      ensures View() == CleanedUp(old(View()), reference)
    {
      if reference in referenceToTask {
        var task := referenceToTask[reference];
        taskToReference := Without(taskToReference, task);
        orphanEventsByTask := Without(orphanEventsByTask, task);
      }
      referenceToTask := Without(referenceToTask, reference);
      queues := Without(queues, reference);
    }
  }

  /** The two dictionaries are mutual inverses. */
  ghost predicate MutualInverses(p: Post) {
    && (forall t :: t in p.taskToReference ==>
          p.taskToReference[t] in p.referenceToTask && p.referenceToTask[p.taskToReference[t]] == t)
    && (forall r :: r in p.referenceToTask ==>
          p.referenceToTask[r] in p.taskToReference && p.taskToReference[p.referenceToTask[r]] == r)
  }

  /** The postman after a list of notices of (task, reference). */
  function AfterNotices(notices: seq<(string, string)>): Post {
    if notices == [] then FRESH
    else Bound(AfterNotices(notices[..|notices| - 1]), notices[|notices| - 1].0, notices[|notices| - 1].1)
  }

  /** Every notice pairs its task and its reference as all the others do. */
  ghost predicate PairedOneToOne(notices: seq<(string, string)>) {
    forall i, j :: 0 <= i < j < |notices| ==> (notices[i].0 == notices[j].0 <==> notices[i].1 == notices[j].1)
  }

  ghost predicate AlwaysInverses(notices: seq<(string, string)>) {
    forall n :: 0 <= n <= |notices| ==> MutualInverses(AfterNotices(notices[..n]))
  }

  /** The dictionaries stay mutual inverses throughout any list of notices exactly when the backend pairs tasks and
      references one to one. */
  lemma {:induction false} InversesIffOneToOne(notices: seq<(string, string)>)
    ensures AlwaysInverses(notices) <==> PairedOneToOne(notices)
    ensures PairedOneToOne(notices) ==> MapsAre(notices)
  {
    if notices != [] {
      var front, last := notices[..|notices| - 1], notices[|notices| - 1];
      assert notices == front + [last];
      InversesIffOneToOne(front);
      AlwaysNext(front, last);
      PairedNext(front, last);
      if PairedOneToOne(front) {
        if PairedOneToOne(front + [last]) {
          PairNoticed(front, last);
        } else {
          ClashNoticed(front, last);
        }
      }
    }
  }

  lemma AlwaysNext(front: seq<(string, string)>, last: (string, string))
    ensures AlwaysInverses(front + [last]) <==>
            AlwaysInverses(front) && MutualInverses(AfterNotices(front + [last]))
  {
    var all := front + [last];
    assert all[..|all|] == all;
    forall n | 0 <= n <= |front| ensures all[..n] == front[..n] {
    }
  }

  lemma PairedNext(front: seq<(string, string)>, last: (string, string))
    ensures PairedOneToOne(front + [last]) <==>
            && PairedOneToOne(front)
            && forall i :: 0 <= i < |front| ==> (front[i].0 == last.0 <==> front[i].1 == last.1)
  {
    var all := front + [last];
    assert forall i :: 0 <= i < |front| ==> all[i] == front[i];
    if PairedOneToOne(all) {
      forall i | 0 <= i < |front| ensures front[i].0 == last.0 <==> front[i].1 == last.1 {
        assert all[i].0 == all[|front|].0 <==> all[i].1 == all[|front|].1;
      }
    }
  }

  /** The dictionaries hold exactly the pairs noticed. */
  ghost predicate MapsAre(notices: seq<(string, string)>) {
    var p := AfterNotices(notices);
    && (forall i :: 0 <= i < |notices| ==>
          && notices[i].0 in p.taskToReference && p.taskToReference[notices[i].0] == notices[i].1
          && notices[i].1 in p.referenceToTask && p.referenceToTask[notices[i].1] == notices[i].0)
    && (forall t :: t in p.taskToReference ==> (t, p.taskToReference[t]) in notices)
    && (forall r :: r in p.referenceToTask ==> (p.referenceToTask[r], r) in notices)
  }

  lemma AfterNext(front: seq<(string, string)>, last: (string, string))
    ensures AfterNotices(front + [last]) == Bound(AfterNotices(front), last.0, last.1)
  {
    assert (front + [last])[..|front|] == front;
  }

  lemma PairNoticed(front: seq<(string, string)>, last: (string, string))
    requires MapsAre(front) && PairedOneToOne(front + [last])
    ensures MapsAre(front + [last]) && MutualInverses(AfterNotices(front + [last]))
  {
    var all, p, p' := front + [last], AfterNotices(front), AfterNotices(front + [last]);
    AfterNext(front, last);
    PairedNext(front, last);
    assert all[|front|] == last;
    forall i | 0 <= i < |all|
      ensures all[i].0 in p'.taskToReference && p'.taskToReference[all[i].0] == all[i].1
      ensures all[i].1 in p'.referenceToTask && p'.referenceToTask[all[i].1] == all[i].0
    {
      assert i < |front| ==> all[i] == front[i];
    }
    forall t | t in p'.taskToReference ensures (t, p'.taskToReference[t]) in all {
      assert t != last.0 ==> (t, p.taskToReference[t]) in front;
    }
    forall r | r in p'.referenceToTask ensures (p'.referenceToTask[r], r) in all {
      assert r != last.1 ==> (p.referenceToTask[r], r) in front;
    }
    MapsMeanInverses(all);
  }

  lemma ClashBreaks(p: Post, task: string, reference: string, last: (string, string))
    requires task in p.taskToReference && p.taskToReference[task] == reference
    requires reference in p.referenceToTask && p.referenceToTask[reference] == task
    requires !(task == last.0 <==> reference == last.1)
    ensures !MutualInverses(Bound(p, last.0, last.1))
  {
    var q := Bound(p, last.0, last.1);
    assert task in q.taskToReference && reference in q.referenceToTask;
  }

  lemma ClashNoticed(front: seq<(string, string)>, last: (string, string))
    requires MapsAre(front) && PairedOneToOne(front) && !PairedOneToOne(front + [last])
    ensures !MutualInverses(AfterNotices(front + [last]))
  {
    AfterNext(front, last);
    PairedNext(front, last);
    var i :| 0 <= i < |front| && !(front[i].0 == last.0 <==> front[i].1 == last.1);
    ClashBreaks(AfterNotices(front), front[i].0, front[i].1, last);
  }

  lemma MapsMeanInverses(notices: seq<(string, string)>)
    requires MapsAre(notices)
    ensures MutualInverses(AfterNotices(notices))
  {
    var p := AfterNotices(notices);
    forall t | t in p.taskToReference
      ensures p.taskToReference[t] in p.referenceToTask && p.referenceToTask[p.taskToReference[t]] == t
    {
      var i :| 0 <= i < |notices| && notices[i] == (t, p.taskToReference[t]);
    }
    forall r | r in p.referenceToTask
      ensures p.referenceToTask[r] in p.taskToReference && p.taskToReference[p.referenceToTask[r]] == r
    {
      var i :| 0 <= i < |notices| && notices[i] == (p.referenceToTask[r], r);
    }
  }

  // ---------------------------------------------------------------- any interleaving

  /** `got` is what each call has been handed; `closed` are the calls that were cancelled and cleaned up.
      `received` is the feed per task, for the specification only. */
  datatype Sys = Sys(post: Post, got: map<string, seq<Change>>, closed: set<string>, received: map<string, seq<Change>>)

  const START := Sys(FRESH, map[], {}, map[])

  datatype Op =
    | Begin(reference: string) | Learn(task: string, reference: string) | Feed(e: Change)
    | Pull(reference: string) | Cleanup(reference: string)

  /** The task the backend creates for each reference, its own and other clients'. */
  type Backend = map<string, string>

  ghost predicate OneToOne(b: Backend) {
    forall r, q :: r in b && q in b && b[r] == b[q] ==> r == q
  }

  function Queue(s: Sys, r: string): seq<Change> { GetOr(s.post.queues, r, []) }

  function Orphans(s: Sys, t: string): seq<Change> { GetOr(s.post.orphans, t, []) }

  function Received(s: Sys, t: string): seq<Change> { GetOr(s.received, t, []) }

  /** A call uses a fresh reference: nothing about its task can have been seen before it starts. */
  ghost predicate Enabled(b: Backend, s: Sys, op: Op) {
    match op
    case Begin(r) => r != "" && r !in s.got && (r in b ==> b[r] !in s.post.taskToReference && Received(s, b[r]) == [])
    case Learn(t, r) => r in b && b[r] == t
    case Feed(_) => true
    case Pull(r) => Live(s, r) && Queue(s, r) != []
    case Cleanup(r) => Live(s, r)
  }

  function Step(s: Sys, op: Op): Sys {
    match op
    case Begin(r) => s.(post := s.post.(queues := s.post.queues[r := []]), got := s.got[r := []])
    case Learn(t, r) => s.(post := Bound(s.post, t, r))
    case Feed(e) => s.(post := Routed(s.post, e), received := s.received[e.task := Received(s, e.task) + [e]])
    case Pull(r) =>
      if Queue(s, r) == [] then s else
        s.(post := s.post.(queues := s.post.queues[r := Queue(s, r)[1..]]),
           got := s.got[r := GetOr(s.got, r, []) + [Queue(s, r)[0]]])
    case Cleanup(r) => s.(post := CleanedUp(s.post, r), closed := s.closed + {r})
  }

  predicate Live(s: Sys, r: string) {
    r in s.got && r !in s.closed
  }

  ghost predicate CallOk(b: Backend, s: Sys, r: string)
    requires r in b
  {
    var t, p := b[r], s.post;
    && (r in p.queues <==> Live(s, r))
    && (r in s.closed ==> r in s.got)
    && (Received(s, t) == [] ==> Orphans(s, t) == [])
    && (Live(s, r) ==>
          if t in p.taskToReference then
            t !in p.orphans && s.got[r] + Queue(s, r) == Received(s, t)
          else
            s.got[r] == Queue(s, r) == [] && Orphans(s, t) == Received(s, t))
  }

  ghost predicate MapsOk(b: Backend, p: Post) {
    && MutualInverses(p)
    && (forall r :: r in p.referenceToTask ==> r in b && b[r] == p.referenceToTask[r])
  }

  ghost predicate Inv(b: Backend, s: Sys) {
    && (forall r :: r in b ==> CallOk(b, s, r))
    && MapsOk(b, s.post)
  }

  lemma MapsKept(b: Backend, s: Sys, op: Op)
    requires OneToOne(b) && MapsOk(b, s.post) && Enabled(b, s, op)
    ensures MapsOk(b, Step(s, op).post)
  {
    match op
    case Learn(t, r) => MapsLearnt(b, s.post, t, r);
    case Cleanup(r) => MapsCleaned(b, s.post, r);
    case _ =>
      assert Step(s, op).post.taskToReference == s.post.taskToReference;
      assert Step(s, op).post.referenceToTask == s.post.referenceToTask;
  }

  lemma MapsLearnt(b: Backend, p: Post, t: string, r: string)
    requires OneToOne(b) && MapsOk(b, p) && r in b && b[r] == t
    ensures MapsOk(b, Bound(p, t, r))
  {
    assert t in p.taskToReference ==> p.taskToReference[t] in b && b[p.taskToReference[t]] == t;
  }

  lemma MapsCleaned(b: Backend, p: Post, r: string)
    requires MapsOk(b, p)
    ensures MapsOk(b, CleanedUp(p, r))
  {
  }

  lemma RoutedTo(b: Backend, s: Sys, t: string)
    requires OneToOne(b) && MapsOk(b, s.post) && t in s.post.taskToReference
    ensures s.post.taskToReference[t] in b && b[s.post.taskToReference[t]] == t
  {
  }

  lemma BeginKept(b: Backend, s: Sys, op: Op, r: string)
    requires OneToOne(b) && Inv(b, s) && Enabled(b, s, op) && r in b && op.Begin?
    ensures CallOk(b, Step(s, op), r)
  {
    assert CallOk(b, s, r);
  }

  lemma LearnKept(b: Backend, s: Sys, op: Op, r: string)
    requires OneToOne(b) && Inv(b, s) && Enabled(b, s, op) && r in b && op.Learn?
    ensures CallOk(b, Step(s, op), r)
  {
    assert CallOk(b, s, r);
    if b[r] in s.post.taskToReference {
      RoutedTo(b, s, b[r]);
    }
  }

  lemma FeedKept(b: Backend, s: Sys, op: Op, r: string)
    requires OneToOne(b) && Inv(b, s) && Enabled(b, s, op) && r in b && op.Feed?
    ensures CallOk(b, Step(s, op), r)
  {
    assert CallOk(b, s, r);
    var t, e := b[r], op.e;
    if e.task in s.post.taskToReference {
      RoutedTo(b, s, e.task);
    }
    if e.task == t && Live(s, r) && t in s.post.taskToReference {
      assert s.got[r] + (Queue(s, r) + [e]) == (s.got[r] + Queue(s, r)) + [e];
    }
  }

  lemma PullKept(b: Backend, s: Sys, op: Op, r: string)
    requires OneToOne(b) && Inv(b, s) && Enabled(b, s, op) && r in b && op.Pull?
    ensures CallOk(b, Step(s, op), r)
  {
    assert CallOk(b, s, r);
    var q := op.reference;
    if q == r {
      assert s.got[r] + Queue(s, r) == (s.got[r] + [Queue(s, r)[0]]) + Queue(s, r)[1..];
    }
  }

  lemma CleanupKept(b: Backend, s: Sys, op: Op, r: string)
    requires OneToOne(b) && Inv(b, s) && Enabled(b, s, op) && r in b && op.Cleanup?
    ensures CallOk(b, Step(s, op), r)
  {
    assert CallOk(b, s, r);
    if op.reference in s.post.referenceToTask && op.reference != r {
      assert b[op.reference] != b[r];
    }
  }

  lemma StepKeepsInv(b: Backend, s: Sys, op: Op)
    requires OneToOne(b) && Inv(b, s) && Enabled(b, s, op)
    ensures Inv(b, Step(s, op))
  {
    forall r | r in b ensures CallOk(b, Step(s, op), r) {
      match op
      case Begin(_) => BeginKept(b, s, op, r);
      case Learn(_, _) => LearnKept(b, s, op, r);
      case Feed(_) => FeedKept(b, s, op, r);
      case Pull(_) => PullKept(b, s, op, r);
      case Cleanup(_) => CleanupKept(b, s, op, r);
    }
    MapsKept(b, s, op);
  }

  ghost predicate Legal(b: Backend, s: Sys, ops: seq<Op>)
    decreases ops
  {
    ops == [] || (Enabled(b, s, ops[0]) && Legal(b, Step(s, ops[0]), ops[1..]))
  }

  function End(s: Sys, ops: seq<Op>): Sys
    decreases ops
  {
    if ops == [] then s else End(Step(s, ops[0]), ops[1..])
  }

  lemma {:induction false} RunKeepsInv(b: Backend, s: Sys, ops: seq<Op>)
    requires OneToOne(b) && Inv(b, s) && Legal(b, s, ops)
    ensures Inv(b, End(s, ops))
    decreases ops
  {
    if ops != [] {
      StepKeepsInv(b, s, ops[0]);
      RunKeepsInv(b, Step(s, ops[0]), ops[1..]);
    }
  }

  /** Whichever of the create notice, the HTTP reply and the events comes first: what a live call was handed,
      what is queued for it and what is orphaned make up the feed of its task, in order; and the two
      dictionaries stay mutual inverses. */
  lemma EveryRunConserves(b: Backend, ops: seq<Op>, r: string)
    requires OneToOne(b) && Legal(b, START, ops) && r in b && Live(End(START, ops), r)
    ensures var s := End(START, ops);
      && s.got[r] + Queue(s, r) + Orphans(s, b[r]) == Received(s, b[r])
      && (r in s.post.referenceToTask ==> b[r] !in s.post.orphans)
      && (r !in s.post.referenceToTask ==> s.got[r] == Queue(s, r) == [])
      && MutualInverses(s.post)
  {
    var s := End(START, ops);
    RunKeepsInv(b, START, ops);
    assert CallOk(b, s, r);
    if b[r] in s.post.taskToReference {
      RoutedTo(b, s, b[r]);
      assert s.got[r] + Queue(s, r) + [] == s.got[r] + Queue(s, r);
    } else {
      assert [] + [] + Orphans(s, b[r]) == Orphans(s, b[r]);
    }
  }

  /** A call that has just begun. */
  ghost predicate Begun(b: Backend, s: Sys, r: string) {
    && r in b && Live(s, r) && r in s.post.queues && s.got[r] == Queue(s, r) == Orphans(s, b[r]) == []
    && b[r] !in s.post.taskToReference
  }

  lemma EventFirst(b: Backend, s: Sys, r: string, e: Change)
    requires Begun(b, s, r) && e.task == b[r]
    ensures var s' := Step(Step(s, Feed(e)), Learn(b[r], r));
      Enabled(b, s', Pull(r)) && Step(s', Pull(r)).got[r] == [e]
  {
    assert [] + [e] == [e];
  }

  lemma NoticeFirst(b: Backend, s: Sys, r: string, e: Change)
    requires Begun(b, s, r) && e.task == b[r]
    ensures var s' := Step(Step(s, Learn(b[r], r)), Feed(e));
      Enabled(b, s', Pull(r)) && Step(s', Pull(r)).got[r] == [e]
  {
    assert [] + [e] == [e];
  }

  /** A call with a fresh reference gets the events of its task, whether they or the notice come first. */
  lemma FirstEventArrives(b: Backend, ops: seq<Op>, r: string, e: Change)
    requires OneToOne(b) && Legal(b, START, ops) && r in b && r != "" && e.task == b[r]
    requires var s := End(START, ops);
      r !in s.got && b[r] !in s.post.taskToReference && Received(s, b[r]) == []
    ensures var s := End(START, ops);
      && Enabled(b, s, Begin(r))
      && var s1 := Step(s, Begin(r));
      && Enabled(b, s1, Feed(e)) && Enabled(b, s1, Learn(b[r], r))
      && var early, late := Step(Step(s1, Feed(e)), Learn(b[r], r)), Step(Step(s1, Learn(b[r], r)), Feed(e));
      && Enabled(b, early, Pull(r)) && Step(early, Pull(r)).got[r] == [e]
      && Enabled(b, late, Pull(r)) && Step(late, Pull(r)).got[r] == [e]
  {
    var s := End(START, ops);
    RunKeepsInv(b, START, ops);
    assert CallOk(b, s, r);
    EventFirst(b, Step(s, Begin(r)), r, e);
    NoticeFirst(b, Step(s, Begin(r)), r, e);
  }

  function Bodies(es: seq<Change>): seq<TaskEvent> {
    seq(|es|, i requires 0 <= i < |es| => es[i].body)
  }

  /** A call that has stopped returned or raised what the whole feed of its task means. */
  lemma CallMeansItsFeed(b: Backend, ops: seq<Op>, r: string)
    requires OneToOne(b) && Legal(b, START, ops) && r in b && Live(End(START, ops), r)
    requires !FeedMeaning(Bodies(End(START, ops).got[r])).Pending?
    ensures var s := End(START, ops); FeedMeaning(Bodies(s.got[r])) == FeedMeaning(Bodies(Received(s, b[r])))
  {
    var s := End(START, ops);
    EveryRunConserves(b, ops, r);
    assert s.got[r] <= Received(s, b[r]);
    FeedPrefixDecides(Bodies(s.got[r]), Bodies(Received(s, b[r])));
  }

  // ---------------------------------------------------------------- a call that starts after its notice

  /** Nothing is asked of when a call begins: events and notices of its task may come before it. */
  ghost predicate EnabledLate(b: Backend, s: Sys, op: Op) {
    match op
    case Begin(r) => r != "" && r !in s.got
    case _ => Enabled(b, s, op)
  }

  ghost predicate LegalLate(b: Backend, s: Sys, ops: seq<Op>)
    decreases ops
  {
    ops == [] || (EnabledLate(b, s, ops[0]) && LegalLate(b, Step(s, ops[0]), ops[1..]))
  }

  lemma {:induction false} LateRunMaps(b: Backend, s: Sys, ops: seq<Op>)
    requires OneToOne(b) && MapsOk(b, s.post) && LegalLate(b, s, ops)
    ensures MapsOk(b, End(s, ops).post)
    decreases ops
  {
    if ops != [] {
      LateMapsKept(b, s, ops[0]);
      LateRunMaps(b, Step(s, ops[0]), ops[1..]);
    }
  }

  lemma LateMapsKept(b: Backend, s: Sys, op: Op)
    requires OneToOne(b) && MapsOk(b, s.post) && EnabledLate(b, s, op)
    ensures MapsOk(b, Step(s, op).post)
  {
    match op
    case Begin(_) =>
      assert Step(s, op).post.taskToReference == s.post.taskToReference;
      assert Step(s, op).post.referenceToTask == s.post.referenceToTask;
    case _ => MapsKept(b, s, op);
  }

  /** A live call can always be closed, wherever it began, and nothing is kept of its reference then, nor, if a notice
      had named its task, of the task; the other calls keep what they have. */
  lemma NothingLeft(b: Backend, ops: seq<Op>, r: string)
    requires OneToOne(b) && LegalLate(b, START, ops) && r in b && Live(End(START, ops), r)
    ensures var s := End(START, ops);
      && Enabled(b, s, Cleanup(r))
      && var s' := Step(s, Cleanup(r));
      && !Live(s', r) && r !in s'.post.queues && r !in s'.post.referenceToTask
      && (b[r] in s.post.taskToReference ==> b[r] !in s'.post.taskToReference && b[r] !in s'.post.orphans)
      && forall q :: q in b && q != r ==> Queue(s', q) == Queue(s, q) && Orphans(s', b[q]) == Orphans(s, b[q])
  {
    var s := End(START, ops);
    LateRunMaps(b, START, ops);
    if b[r] in s.post.taskToReference {
      RoutedTo(b, s, b[r]);
    }
    if r in s.post.referenceToTask {
      assert s.post.referenceToTask[r] == b[r];
    }
  }

  predicate Feeds(op: Op, t: string) {
    op.Feed? && op.e.task == t
  }

  predicate Notices(op: Op, r: string) {
    op.Learn? && op.reference == r
  }

  /** How many events of the task are thrown away: those before the last notice that precedes the call. `seen` came
      so far, `lost` of them were lost, and the call has `begun`. */
  function Lost(t: string, r: string, ops: seq<Op>, seen: nat, lost: nat, begun: bool): nat
    decreases ops
  {
    if ops == [] then lost
    else
      Lost(t, r, ops[1..], if Feeds(ops[0], t) then seen + 1 else seen,
           if Notices(ops[0], r) && !begun then seen else lost, begun || ops[0] == Begin(r))
  }

  /** What is left of the events of the task; until the call begins, it is all orphaned. */
  ghost predicate Left(s: Sys, t: string, r: string, lost: nat) {
    && lost <= |Received(s, t)|
    && (if r in s.got then
          multiset(s.got[r] + Queue(s, r) + Orphans(s, t)) == multiset(Received(s, t)[lost..])
        else
          r !in s.post.queues && Orphans(s, t) == Received(s, t)[lost..])
  }

  ghost predicate LateInv(b: Backend, s: Sys, r: string, lost: nat)
    requires r in b
  {
    && MapsOk(b, s.post) && Left(s, b[r], r, lost)
    && (r in s.got <==> r in s.post.queues)
  }

  lemma LateMaps(b: Backend, s: Sys, op: Op)
    requires OneToOne(b) && MapsOk(b, s.post) && EnabledLate(b, s, op)
    ensures MapsOk(b, Step(s, op).post)
  {
    if op.Begin? {
      assert Step(s, op).post.referenceToTask == s.post.referenceToTask;
    } else {
      MapsKept(b, s, op);
    }
  }

  lemma FedLate(b: Backend, s: Sys, e: Change, r: string, lost: nat)
    requires OneToOne(b) && r in b && LateInv(b, s, r, lost)
    ensures LateInv(b, Step(s, Feed(e)), r, lost)
  {
    if e.task in s.post.taskToReference {
      RoutedTo(b, s, e.task);
    }
    if e.task == b[r] {
      FedOwn(b, s, e, r, lost);
    } else {
      FedOther(b, s, e, r, lost);
    }
  }

  lemma FedOther(b: Backend, s: Sys, e: Change, r: string, lost: nat)
    requires r in b && LateInv(b, s, r, lost) && e.task != b[r]
    requires e.task in s.post.taskToReference ==>
               s.post.taskToReference[e.task] in b && b[s.post.taskToReference[e.task]] == e.task
    ensures LateInv(b, Step(s, Feed(e)), r, lost)
  {
    var s' := Step(s, Feed(e));
    assert Queue(s', r) == Queue(s, r) && Orphans(s', b[r]) == Orphans(s, b[r]);
  }

  lemma FedOwn(b: Backend, s: Sys, e: Change, r: string, lost: nat)
    requires r in b && LateInv(b, s, r, lost) && e.task == b[r]
    requires e.task in s.post.taskToReference ==> s.post.taskToReference[e.task] == r
    ensures LateInv(b, Step(s, Feed(e)), r, lost)
  {
    var t, s' := b[r], Step(s, Feed(e));
    assert Received(s', t) == Received(s, t) + [e];
    if t in s.post.taskToReference && r in s.post.queues {
      LeftInQueue(s, s', t, r, lost, e);
    } else {
      LeftOrphaned(s, s', t, r, lost, e);
    }
  }

  lemma LeftInQueue(s: Sys, s': Sys, t: string, r: string, lost: nat, e: Change)
    requires Left(s, t, r, lost) && r in s.got && s'.got == s.got && Received(s', t) == Received(s, t) + [e]
    requires Queue(s', r) == Queue(s, r) + [e] && Orphans(s', t) == Orphans(s, t)
    ensures Left(s', t, r, lost)
  {
    OneEvent(s.got[r], Queue(s, r), Orphans(s, t), e);
    assert Received(s', t)[lost..] == Received(s, t)[lost..] + [e];
  }

  lemma LeftOrphaned(s: Sys, s': Sys, t: string, r: string, lost: nat, e: Change)
    requires Left(s, t, r, lost) && s'.got == s.got && Received(s', t) == Received(s, t) + [e]
    requires s'.post.queues == s.post.queues && Orphans(s', t) == Orphans(s, t) + [e]
    ensures Left(s', t, r, lost)
  {
    assert Received(s', t)[lost..] == Received(s, t)[lost..] + [e];
    if r in s.got {
      OneEvent(s.got[r], Queue(s, r), Orphans(s, t), e);
    }
  }

  lemma OneEvent(got: seq<Change>, q: seq<Change>, o: seq<Change>, e: Change)
    ensures multiset(got + (q + [e]) + o) == multiset(got + q + o) + multiset{e}
    ensures multiset(got + q + (o + [e])) == multiset(got + q + o) + multiset{e}
  {
    assert got + q + (o + [e]) == got + q + o + [e];
  }

  lemma LearntLate(b: Backend, s: Sys, t: string, q: string, r: string, lost: nat)
    requires OneToOne(b) && r in b && LateInv(b, s, r, lost) && q in b && b[q] == t
    ensures LateInv(b, Step(s, Learn(t, q)), r, if q == r && r !in s.got then |Received(s, b[r])| else lost)
  {
    LateMaps(b, s, Learn(t, q));
    assert Received(s, b[r])[|Received(s, b[r])|..] == [];
  }

  lemma PulledLate(b: Backend, s: Sys, q: string, r: string, lost: nat)
    requires OneToOne(b) && r in b && LateInv(b, s, r, lost) && Live(s, q) && Queue(s, q) != []
    ensures LateInv(b, Step(s, Pull(q)), r, lost)
  {
    if q == r {
      assert Queue(s, r) == [Queue(s, r)[0]] + Queue(s, r)[1..];
    }
  }

  lemma CleanedLate(b: Backend, s: Sys, q: string, r: string, lost: nat)
    requires OneToOne(b) && r in b && LateInv(b, s, r, lost) && Live(s, q) && q != r
    ensures LateInv(b, Step(s, Cleanup(q)), r, lost)
  {
    LateMaps(b, s, Cleanup(q));
    if q in s.post.referenceToTask {
      assert b[q] != b[r];
    }
  }

  lemma BegunLate(b: Backend, s: Sys, q: string, r: string, lost: nat)
    requires OneToOne(b) && r in b && LateInv(b, s, r, lost) && EnabledLate(b, s, Begin(q))
    ensures LateInv(b, Step(s, Begin(q)), r, lost)
  {
    if q == r {
      assert [] + [] + Orphans(s, b[r]) == Orphans(s, b[r]);
    }
  }

  lemma LateStep(b: Backend, s: Sys, op: Op, r: string, lost: nat)
    requires OneToOne(b) && r in b && LateInv(b, s, r, lost) && EnabledLate(b, s, op) && op != Cleanup(r)
    ensures LateInv(b, Step(s, op), r, if Notices(op, r) && r !in s.got then |Received(s, b[r])| else lost)
    ensures r in Step(s, op).got <==> r in s.got || op == Begin(r)
    ensures |Received(Step(s, op), b[r])| == |Received(s, b[r])| + if Feeds(op, b[r]) then 1 else 0
  {
    match op
    case Begin(q) => BegunLate(b, s, q, r, lost);
    case Learn(t, q) => LearntLate(b, s, t, q, r, lost);
    case Feed(e) => FedLate(b, s, e, r, lost);
    case Pull(q) => PulledLate(b, s, q, r, lost);
    case Cleanup(q) => CleanedLate(b, s, q, r, lost);
  }

  lemma {:induction false} LateRun(b: Backend, s: Sys, ops: seq<Op>, r: string, lost: nat)
    requires OneToOne(b) && r in b && LateInv(b, s, r, lost) && LegalLate(b, s, ops) && Cleanup(r) !in ops
    ensures LateInv(b, End(s, ops), r, Lost(b[r], r, ops, |Received(s, b[r])|, lost, r in s.got))
    decreases ops
  {
    if ops != [] {
      LateStep(b, s, ops[0], r, lost);
      LateRun(b, Step(s, ops[0]), ops[1..], r,
              if Notices(ops[0], r) && r !in s.got then |Received(s, b[r])| else lost);
    }
  }

  /** An event of the task precedes a notice that precedes the call. */
  ghost predicate NoticedTooSoon(ops: seq<Op>, t: string, r: string, seen: bool) {
    exists j :: 0 <= j < |ops| && Notices(ops[j], r) && Begin(r) !in ops[..j]
                && (seen || exists i :: 0 <= i < j && Feeds(ops[i], t))
  }

  lemma TooSoonFirst(ops: seq<Op>, t: string, r: string, seen: bool)
    requires ops != []
    ensures NoticedTooSoon(ops, t, r, seen) <==>
              || (Notices(ops[0], r) && seen)
              || (ops[0] != Begin(r) && NoticedTooSoon(ops[1..], t, r, seen || Feeds(ops[0], t)))
  {
    if NoticedTooSoon(ops, t, r, seen) {
      TooSoonSplit(ops, t, r, seen);
    }
    if ops[0] != Begin(r) && NoticedTooSoon(ops[1..], t, r, seen || Feeds(ops[0], t)) {
      TooSoonJoin(ops, t, r, seen);
    }
    assert ops[..0] == [];
  }

  lemma TooSoonSplit(ops: seq<Op>, t: string, r: string, seen: bool)
    requires ops != [] && NoticedTooSoon(ops, t, r, seen)
    ensures || (Notices(ops[0], r) && seen)
            || (ops[0] != Begin(r) && NoticedTooSoon(ops[1..], t, r, seen || Feeds(ops[0], t)))
  {
    var rest := ops[1..];
    var j :| 0 <= j < |ops| && Notices(ops[j], r) && Begin(r) !in ops[..j]
             && (seen || exists i :: 0 <= i < j && Feeds(ops[i], t));
    if j > 0 {
      assert rest[j - 1] == ops[j] && ops[..j] == [ops[0]] + rest[..j - 1];
      if i :| 0 <= i < j && Feeds(ops[i], t) {
        assert i == 0 || rest[i - 1] == ops[i];
      }
    }
  }

  lemma TooSoonJoin(ops: seq<Op>, t: string, r: string, seen: bool)
    requires ops != [] && ops[0] != Begin(r) && NoticedTooSoon(ops[1..], t, r, seen || Feeds(ops[0], t))
    ensures NoticedTooSoon(ops, t, r, seen)
  {
    var rest := ops[1..];
    var j :| 0 <= j < |rest| && Notices(rest[j], r) && Begin(r) !in rest[..j]
             && (seen || Feeds(ops[0], t) || exists i :: 0 <= i < j && Feeds(rest[i], t));
    assert ops[j + 1] == rest[j] && ops[..j + 1] == [ops[0]] + rest[..j];
    if i :| 0 <= i < j && Feeds(rest[i], t) {
      assert ops[i + 1] == rest[i];
    }
  }

  lemma {:induction false} LostIff(ops: seq<Op>, t: string, r: string, seen: nat, lost: nat, begun: bool)
    requires lost <= seen
    ensures Lost(t, r, ops, seen, lost, begun) > 0 <==>
              lost > 0 || (!begun && NoticedTooSoon(ops, t, r, seen > 0))
    decreases ops
  {
    if ops != [] {
      TooSoonFirst(ops, t, r, seen > 0);
      LostIff(ops[1..], t, r, if Feeds(ops[0], t) then seen + 1 else seen,
              if Notices(ops[0], r) && !begun then seen else lost, begun || ops[0] == Begin(r));
    }
  }

  /** Over every run, wherever in it the call begins: nothing of the task's feed is lost to the live call exactly if no
      event of the task precedes a notice of it that precedes the call. */
  lemma NothingLostIff(b: Backend, ops: seq<Op>, r: string)
    requires OneToOne(b) && LegalLate(b, START, ops) && r in b && Cleanup(r) !in ops && r in End(START, ops).got
    ensures var s := End(START, ops);
      multiset(s.got[r] + Queue(s, r) + Orphans(s, b[r])) == multiset(Received(s, b[r])) <==>
        !NoticedTooSoon(ops, b[r], r, false)
  {
    var s, n := End(START, ops), Lost(b[r], r, ops, 0, 0, false);
    LateRun(b, START, ops, r, 0);
    LostIff(ops, b[r], r, 0, 0, false);
    var all := Received(s, b[r]);
    assert |multiset(all[n..])| == |all| - n && |multiset(all)| == |all|;
    if n == 0 {
      assert all[n..] == all;
    }
  }

  /** What is not lost may still be overtaken: an event between the notice and the call waits until the next notice,
      behind the events that come after the call began. */
  lemma Overtaken(t: string, r: string, e: Change, f: Change)
    requires r != "" && e.task == t && f.task == t
    ensures var b: Backend := map[r := t];
      var ops := [Learn(t, r)] + ([Feed(e)] + ([Begin(r)] + ([Feed(f)] + [Learn(t, r)])));
      LegalLate(b, START, ops) && Queue(End(START, ops), r) == [f, e]
  {
    var b: Backend := map[r := t];
    var s1 := Step(START, Learn(t, r));
    var s2 := Step(s1, Feed(e));
    var s3 := Step(s2, Begin(r));
    var s4 := Step(s3, Feed(f));
    assert [Learn(t, r)] + [] == [Learn(t, r)];
    OneMore(b, s4, Learn(t, r), []);
    OneMore(b, s3, Feed(f), [Learn(t, r)]);
    OneMore(b, s2, Begin(r), [Feed(f)] + [Learn(t, r)]);
    OneMore(b, s1, Feed(e), [Begin(r)] + ([Feed(f)] + [Learn(t, r)]));
    OneMore(b, START, Learn(t, r), [Feed(e)] + ([Begin(r)] + ([Feed(f)] + [Learn(t, r)])));
    assert Orphans(s4, t) == [e] && Queue(s4, r) == [f];
    assert [f] + [e] == [f, e];
  }

  lemma OneMore(b: Backend, s: Sys, op: Op, rest: seq<Op>)
    ensures LegalLate(b, s, [op] + rest) <==> EnabledLate(b, s, op) && LegalLate(b, Step(s, op), rest)
    ensures End(s, [op] + rest) == End(Step(s, op), rest)
  {
    assert ([op] + rest)[1..] == rest;
  }
}
