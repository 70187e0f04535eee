/** What one drain of the waiting list does, in closed form: with M the listed groups that have
    messages and T the other listed groups that have tasks, both in list order, it starts as many
    of M as there are free slots, then as many of T as slots and task slots remain. */
module QueueDrain {
  import opened Basics
  import opened QueueState
  import opened QueueSteps

  function Select(w: seq<Jid>, p: Jid -> bool): (r: seq<Jid>)
    ensures |r| <= |w|
    ensures forall h :: h in r <==> h in w && p(h)
  {
    if w == [] then [] else (if p(w[0]) then [w[0]] else []) + Select(w[1..], p)
  }

  lemma {:induction false} SelectConcat(v: seq<Jid>, w: seq<Jid>, p: Jid -> bool)
    ensures Select(v + w, p) == Select(v, p) + Select(w, p)
  {
    if v == [] {
      assert v + w == w;
    } else {
      assert (v + w)[1..] == v[1..] + w;
      SelectConcat(v[1..], w, p);
    }
  }

  lemma {:induction false} SelectSame(w: seq<Jid>, p: Jid -> bool, q: Jid -> bool)
    requires forall h :: h in w ==> p(h) == q(h)
    ensures Select(w, p) == Select(w, q)
  {
    if w != [] {
      SelectSame(w[1..], p, q);
    }
  }

  lemma {:induction false} SelectDistinct(w: seq<Jid>, p: Jid -> bool)
    requires NoDuplicates(w)
    ensures NoDuplicates(Select(w, p))
  {
    if w != [] {
      DistinctTail(w);
      SelectDistinct(w[1..], p);
    }
  }

  /** Cutting one element out of a list: one that is not selected, or the first that is. */
  lemma SelectCons(x: Jid, b: seq<Jid>, p: Jid -> bool)
    ensures Select([x] + b, p) == (if p(x) then [x] else []) + Select(b, p)
  {
    assert ([x] + b)[1..] == b;
  }

  lemma SelectCut(a: seq<Jid>, x: Jid, b: seq<Jid>, p: Jid -> bool)
    ensures !p(x) ==> Select(a + [x] + b, p) == Select(a + b, p)
    ensures p(x) && Select(a, p) == [] ==> Select(a + [x] + b, p) == [x] + Select(a + b, p)
  {
    hide Select;
    assert a + [x] + b == a + ([x] + b);
    SelectConcat(a, [x] + b, p);
    SelectConcat(a, b, p);
    SelectCons(x, b, p);
  }

  lemma SelectNone(w: seq<Jid>, p: Jid -> bool)
    requires forall h :: h in w ==> !p(h)
    ensures Select(w, p) == []
  {
    if Select(w, p) != [] {
      assert Select(w, p)[0] in Select(w, p);
    }
  }

  lemma {:induction false} SelectAll(w: seq<Jid>, p: Jid -> bool)
    requires forall h :: h in w ==> p(h)
    ensures Select(w, p) == w
  {
    if w != [] {
      SelectAll(w[1..], p);
    }
  }

  function HasMessages(s: Queue): Jid -> bool {
    h => Get(s, h).pendingMessages
  }

  function HasOnlyTasks(s: Queue): Jid -> bool {
    h => !Get(s, h).pendingMessages && |Get(s, h).pendingTasks| > 0
  }

  function Clamp(n: int, hi: nat): (r: nat)
    ensures r <= hi
    ensures 0 <= n <= hi ==> r == n
  {
    if n < 0 then 0 else if n > hi then hi else n
  }

  function Messages(s: Queue): seq<Jid> {
    Select(s.waiting, HasMessages(s))
  }

  function Tasks(s: Queue): seq<Jid> {
    Select(s.waiting, HasOnlyTasks(s))
  }

  function Free(c: Limits, s: Queue): int {
    EffectiveMax(c, s) - s.activeCount
  }

  function StartedMessages(c: Limits, s: Queue): seq<Jid> {
    Messages(s)[..Clamp(Free(c, s), |Messages(s)|)]
  }

  function StartedTasks(c: Limits, s: Queue): seq<Jid> {
    Tasks(s)[..Clamp(Min(Free(c, s) - |Messages(s)|, c.MaxTasks() - s.activeTaskCount), |Tasks(s)|)]
  }

  /** Starts message runs of the groups in order. */
  function StartEach(s: Queue, gs: seq<Jid>): Queue
    decreases |gs|
  {
    if gs == [] then s else StartEach(StartMessages(s, gs[0]), gs[1..])
  }

  /** Starts the oldest task, if any, of each of the groups in order. */
  function StartEachQueued(s: Queue, gs: seq<Jid>): Queue
    decreases |gs|
  {
    if gs == [] then s
    else if |Get(s, gs[0]).pendingTasks| == 0 then StartEachQueued(s, gs[1..])
    else StartEachQueued(StartQueued(s, gs[0]), gs[1..])
  }

  function NotIn(gs: seq<Jid>, hs: seq<Jid>): Jid -> bool {
    h => h !in gs && h !in hs
  }

  /** Those that stay listed, in their order. */
  function Left(c: Limits, s: Queue): seq<Jid> {
    Select(s.waiting, NotIn(StartedMessages(c, s), StartedTasks(c, s)))
  }

  /** Starts the messages of ms and the tasks of ts, leaving `left` in the list. */
  function StartAll(s: Queue, left: seq<Jid>, ms: seq<Jid>, ts: seq<Jid>): Queue {
    StartEachQueued(StartEach(s.(waiting := left), ms), ts)
  }

  /** The closed form of a drain. */
  function Drained(c: Limits, s: Queue): Queue {
    StartAll(s, Left(c, s), StartedMessages(c, s), StartedTasks(c, s))
  }

  // ---- one iteration

  /** The list around position k, by name. */
  ghost predicate Split(w: seq<Jid>, a: seq<Jid>, x: Jid, b: seq<Jid>) {
    w == a + [x] + b && x !in a && x !in b
  }

  /** What is selected from the others does not change when only x changes. */
  lemma SelectOthers(a: seq<Jid>, x: Jid, b: seq<Jid>, p: Jid -> bool, q: Jid -> bool)
    requires x !in a && x !in b && forall h :: h != x ==> p(h) == q(h)
    ensures !p(x) ==> Select(a + [x] + b, p) == Select(a + b, q)
    ensures p(x) && Select(a, p) == [] ==> Select(a + [x] + b, p) == [x] + Select(a + b, q)
  {
    SelectCut(a, x, b, p);
    assert forall h :: h in a + b ==> h != x;
    SelectSame(a + b, p, q);
  }

  lemma StartAllMessage(s: Queue, w: seq<Jid>, g: Jid, left: seq<Jid>, ms: seq<Jid>, ts: seq<Jid>)
    ensures StartAll(s, left, [g] + ms, ts) == StartAll(StartMessages(s.(waiting := w), g), left, ms, ts)
  {
    assert StartMessages(s.(waiting := w), g).(waiting := left) == StartMessages(s.(waiting := left), g);
    assert ([g] + ms)[1..] == ms;
  }

  lemma StartAllTask(s: Queue, w: seq<Jid>, g: Jid, left: seq<Jid>, ts: seq<Jid>)
    requires |Get(s, g).pendingTasks| > 0
    ensures StartAll(s, left, [], [g] + ts) == StartAll(StartQueued(s.(waiting := w), g), left, [], ts)
  {
    assert StartQueued(s.(waiting := w), g).(waiting := left) == StartQueued(s.(waiting := left), g);
    assert ([g] + ts)[1..] == ts;
  }

  lemma MessageSelections(s: Queue, s1: Queue, g: Jid, a: seq<Jid>, b: seq<Jid>)
    requires Split(s.waiting, a, g, b) && s1.waiting == a + b && Get(s, g).pendingMessages
    requires forall h :: h != g ==> Get(s1, h) == Get(s, h)
    requires forall h :: h in a ==> !Get(s, h).pendingMessages
    ensures Messages(s) == [g] + Messages(s1) && Tasks(s) == Tasks(s1)
  {
    SelectNone(a, HasMessages(s));
    SelectOthers(a, g, b, HasMessages(s), HasMessages(s1));
    SelectOthers(a, g, b, HasOnlyTasks(s), HasOnlyTasks(s1));
  }

  lemma MessageIteration(c: Limits, s: Queue, g: Jid, a: seq<Jid>, b: seq<Jid>)
    requires s.activeCount < EffectiveMax(c, s)
    requires Split(s.waiting, a, g, b) && Get(s, g).pendingMessages
    requires forall h :: h in a ==> !Get(s, h).pendingMessages
    ensures Drained(c, s) == Drained(c, StartMessages(s.(waiting := a + b), g))
  {
    var s1 := StartMessages(s.(waiting := a + b), g);
    MessageSelections(s, s1, g, a, b);
    MessageLeft(c, s, s1, g, a, b);
    StartAllMessage(s, a + b, g, Left(c, s1), StartedMessages(c, s1), StartedTasks(c, s1));
  }

  lemma MessageLeft(c: Limits, s: Queue, s1: Queue, g: Jid, a: seq<Jid>, b: seq<Jid>)
    requires Split(s.waiting, a, g, b) && s1.waiting == a + b
    requires Free(c, s) > 0 && Free(c, s1) == Free(c, s) - 1 && s1.activeTaskCount == s.activeTaskCount
    requires Messages(s) == [g] + Messages(s1) && Tasks(s) == Tasks(s1)
    ensures StartedMessages(c, s) == [g] + StartedMessages(c, s1)
    ensures StartedTasks(c, s) == StartedTasks(c, s1)
    ensures Left(c, s) == Left(c, s1)
  {
    assert StartedMessages(c, s) == [g] + StartedMessages(c, s1);
    var p, q := NotIn(StartedMessages(c, s), StartedTasks(c, s)), NotIn(StartedMessages(c, s1), StartedTasks(c, s1));
    assert !p(g) && forall h :: h != g ==> p(h) == q(h);
    SelectOthers(a, g, b, p, q);
  }

  lemma TaskSelections(s: Queue, s1: Queue, g: Jid, a: seq<Jid>, b: seq<Jid>)
    requires Split(s.waiting, a, g, b) && s1.waiting == a + b && |Get(s, g).pendingTasks| > 0
    requires forall h :: h != g ==> Get(s1, h) == Get(s, h)
    requires forall h :: h in s.waiting ==> !Get(s, h).pendingMessages
    requires forall h :: h in a ==> |Get(s, h).pendingTasks| == 0
    ensures Messages(s) == [] && Messages(s1) == [] && Tasks(s) == [g] + Tasks(s1)
  {
    assert g in s.waiting && forall h :: h in a + b ==> h in s.waiting && h != g;
    SelectNone(s.waiting, HasMessages(s));
    SelectNone(a + b, HasMessages(s1));
    SelectNone(a, HasOnlyTasks(s));
    SelectOthers(a, g, b, HasOnlyTasks(s), HasOnlyTasks(s1));
  }

  lemma TaskIteration(c: Limits, s: Queue, g: Jid, a: seq<Jid>, b: seq<Jid>)
    requires s.activeCount < EffectiveMax(c, s) && s.activeTaskCount < c.MaxTasks()
    requires Split(s.waiting, a, g, b) && |Get(s, g).pendingTasks| > 0
    requires forall h :: h in s.waiting ==> !Get(s, h).pendingMessages
    requires forall h :: h in a ==> |Get(s, h).pendingTasks| == 0
    ensures Drained(c, s) == Drained(c, StartQueued(s.(waiting := a + b), g))
  {
    var s1 := StartQueued(s.(waiting := a + b), g);
    TaskSelections(s, s1, g, a, b);
    TaskLeft(c, s, s1, g, a, b);
    StartAllTask(s, a + b, g, Left(c, s1), StartedTasks(c, s1));
  }

  lemma TaskLeft(c: Limits, s: Queue, s1: Queue, g: Jid, a: seq<Jid>, b: seq<Jid>)
    requires Split(s.waiting, a, g, b) && s1.waiting == a + b
    requires Free(c, s) > 0 && Free(c, s1) == Free(c, s) - 1
    requires s.activeTaskCount < c.MaxTasks() && s1.activeTaskCount == s.activeTaskCount + 1
    requires Messages(s) == [] && Messages(s1) == [] && Tasks(s) == [g] + Tasks(s1)
    ensures StartedMessages(c, s) == [] && StartedMessages(c, s1) == []
    ensures StartedTasks(c, s) == [g] + StartedTasks(c, s1)
    ensures Left(c, s) == Left(c, s1)
  {
    assert StartedTasks(c, s) == [g] + StartedTasks(c, s1);
    var p, q := NotIn(StartedMessages(c, s), StartedTasks(c, s)), NotIn(StartedMessages(c, s1), StartedTasks(c, s1));
    assert !p(g) && forall h :: h != g ==> p(h) == q(h);
    SelectOthers(a, g, b, p, q);
  }

  /** Where the loop stops the closed form starts nobody. */
  lemma NothingToStart(c: Limits, s: Queue)
    requires s.activeCount >= EffectiveMax(c, s) || NextIndex(c, s) == |s.waiting|
    ensures Drained(c, s) == s
  {
    hide NextIndex, StartedMessages, StartedTasks, AssertReports, TransitionReports;
    NobodyStarts(c, s);
    SelectAll(s.waiting, NotIn(StartedMessages(c, s), StartedTasks(c, s)));
  }

  lemma NobodyStarts(c: Limits, s: Queue)
    requires s.activeCount >= EffectiveMax(c, s) || NextIndex(c, s) == |s.waiting|
    ensures StartedMessages(c, s) == [] && StartedTasks(c, s) == []
  {
    hide AssertReports, TransitionReports;
    if s.activeCount < EffectiveMax(c, s) {
      assert FirstMessage(s, 0) == |s.waiting| && FirstTask(c, s, 0) == |s.waiting|;
      SelectNone(s.waiting, HasMessages(s));
      if s.activeTaskCount < c.MaxTasks() {
        SelectNone(s.waiting, HasOnlyTasks(s));
      }
    }
  }

  lemma Around(w: seq<Jid>, k: nat)
    requires NoDuplicates(w) && k < |w|
    ensures Split(w, w[..k], w[k], w[k + 1..]) && NoDuplicates(w[..k] + w[k + 1..])
  {
  }

  /** The loop refines the closed form. */
  lemma {:induction false} DrainClosedForm(c: Limits, s: Queue)
    requires s.handler && NoDuplicates(s.waiting)
    ensures DrainWaiting(c, s) == Drained(c, s)
    decreases |s.waiting|
  {
    hide AssertReports, TransitionReports, Drained;
    var k := NextIndex(c, s);
    if s.activeCount >= EffectiveMax(c, s) || k == |s.waiting| {
      NothingToStart(c, s);
    } else {
      var g, a, b := s.waiting[k], s.waiting[..k], s.waiting[k + 1..];
      Around(s.waiting, k);
      if Get(s, g).pendingMessages {
        assert forall h :: h in a ==> !Get(s, h).pendingMessages;
        MessageIteration(c, s, g, a, b);
        DrainClosedForm(c, StartMessages(Unlist(s, k), g));
      } else {
        assert FirstMessage(s, 0) == |s.waiting| && FirstTask(c, s, 0) == k;
        TaskIteration(c, s, g, a, b);
        DrainClosedForm(c, StartQueued(Unlist(s, k), g));
      }
    }
  }

  /** What stays listed keeps its order (it is a selection) and stays free of duplicates, and the
      numbers of runs started are those of the closed form. */
  lemma DrainCounts(c: Limits, s: Queue)
    requires s.handler && NoDuplicates(s.waiting)
    ensures var r := DrainWaiting(c, s);
            && r.waiting == Left(c, s) && NoDuplicates(r.waiting)
            && r.activeCount == s.activeCount + |StartedMessages(c, s)| + |StartedTasks(c, s)|
            && r.activeTaskCount == s.activeTaskCount + |StartedTasks(c, s)|
  {
    hide DrainWaiting, StartMessages, StartQueued, Select;
    DrainClosedForm(c, s);
    SelectDistinct(s.waiting, NotIn(StartedMessages(c, s), StartedTasks(c, s)));
    SelectDistinct(s.waiting, HasOnlyTasks(s));
    var s1 := s.(waiting := Left(c, s));
    var s2 := StartEach(s1, StartedMessages(c, s));
    StartEachCounts(s1, StartedMessages(c, s));
    forall h | h in StartedTasks(c, s) ensures |Get(s2, h).pendingTasks| > 0 {
      assert h in Tasks(s) && h !in Messages(s);
      StartEachKeeps(s1, StartedMessages(c, s), h);
    }
    StartEachQueuedCounts(s2, StartedTasks(c, s));
  }

  lemma {:induction false} StartEachKeeps(s: Queue, gs: seq<Jid>, h: Jid)
    requires h !in gs
    ensures Get(StartEach(s, gs), h) == Get(s, h)
    decreases |gs|
  {
    if gs != [] {
      StartEachKeeps(StartMessages(s, gs[0]), gs[1..], h);
    }
  }

  lemma {:induction false} StartEachCounts(s: Queue, gs: seq<Jid>)
    ensures var r := StartEach(s, gs);
            && r.waiting == s.waiting && r.activeTaskCount == s.activeTaskCount
            && r.activeCount == s.activeCount + |gs|
    decreases |gs|
  {
    if gs != [] {
      StartEachCounts(StartMessages(s, gs[0]), gs[1..]);
    }
  }

  lemma {:induction false} StartEachQueuedCounts(s: Queue, gs: seq<Jid>)
    requires NoDuplicates(gs) && forall h :: h in gs ==> |Get(s, h).pendingTasks| > 0
    ensures var r := StartEachQueued(s, gs);
            && r.waiting == s.waiting && r.activeTaskCount == s.activeTaskCount + |gs|
            && r.activeCount == s.activeCount + |gs|
    decreases |gs|
  {
    if gs != [] {
      DistinctTail(gs);
      assert gs[0] in gs;
      var s1 := StartQueued(s, gs[0]);
      forall h | h in gs[1..] ensures |Get(s1, h).pendingTasks| > 0 {
        assert h in gs && h != gs[0] && Get(s1, h) == Get(s, h);
      }
      StartEachQueuedCounts(s1, gs[1..]);
    }
  }

  // ---- which block drains what

  /** The state in which the end of a run of g comes to draining the list, if it does. */
  function GoesOnToDrain(s: Queue, g: Jid): Option<Queue> {
    if s.shuttingDown || Get(s, g).pendingTasks != [] || Get(s, g).pendingMessages then None else Some(s)
  }

  /** The state whose list the block is about to drain, if it drains. */
  function AboutToDrain(s: Queue, e: Event): Option<Queue> {
    match e
    case SetHandler => Some(s.(handler := true))
    case RecoveryEnds => Some(s.(recoveryMode := false))
    case MessageRunEnds(g, run, outcome, now) => GoesOnToDrain(Ended(s, g, run, outcome, now), g)
    case TaskRunEnds(g, t) => GoesOnToDrain(EndTask(s, g, t), g)
    case _ => None
  }

  /** With a handler, a run end goes on in one of four ways. */
  lemma DrainGroupGoesOn(c: Limits, s: Queue, g: Jid)
    requires s.handler
    ensures DrainGroup(c, s, g) == if s.shuttingDown then s
                                   else if Get(s, g).pendingTasks != [] then StartQueued(s, g)
                                   else if Get(s, g).pendingMessages then StartMessages(s, g)
                                   else DrainWaiting(c, s)
  {
    hide AssertReports, TransitionReports, StartQueued, StartMessages;
    assert RunForGroup(c, s, g) == StartMessages(s, g);
  }

  /** The two lists of a drain: disjoint, duplicate-free, and the second with tasks at hand even after
      the first is started. */
  lemma StartedLists(c: Limits, s: Queue)
    requires NoDuplicates(s.waiting)
    ensures var ms, ts := StartedMessages(c, s), StartedTasks(c, s);
            && NoDuplicates(ms) && NoDuplicates(ts)
            && (forall h :: h in ms ==> h !in ts)
            && (forall h :: h in ts ==> |Get(StartEach(s.(waiting := Left(c, s)), ms), h).pendingTasks| > 0)
  {
    hide AssertReports, TransitionReports;
    SelectDistinct(s.waiting, HasMessages(s));
    SelectDistinct(s.waiting, HasOnlyTasks(s));
    forall h | h in StartedTasks(c, s)
      ensures h !in StartedMessages(c, s)
      ensures |Get(StartEach(s.(waiting := Left(c, s)), StartedMessages(c, s)), h).pendingTasks| > 0
    {
      assert h in Tasks(s) && h !in Messages(s);
      StartEachKeeps(s.(waiting := Left(c, s)), StartedMessages(c, s), h);
    }
  }
}
