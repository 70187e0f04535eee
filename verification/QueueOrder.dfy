/** Who is put on the waiting list, that it keeps the order in which they were put there, and which tasks are
    accepted. */
module QueueOrder {
  import opened Basics
  import opened QueueState
  import opened QueueSteps

  /** What is left of a list from which some entries were taken. */
  predicate LeftOf(a: seq<Jid>, b: seq<Jid>)
    decreases |b|
  {
    if b == [] then a == []
    else if a != [] && a[0] == b[0] then LeftOf(a[1..], b[1..]) else LeftOf(a, b[1..])
  }

  lemma {:induction false} LeftNothing(b: seq<Jid>)
    ensures LeftOf([], b)
    decreases |b|
  {
    if b != [] {
      LeftNothing(b[1..]);
    }
  }

  /** Taking the first match first loses nothing. */
  lemma {:induction false} LeftWider(a: seq<Jid>, b: seq<Jid>)
    requires b != [] && LeftOf(a, b[1..])
    ensures LeftOf(a, b)
    decreases |b|, 0
  {
    if a != [] && a[0] == b[0] {
      LeftShorter(a, b[1..]);
    }
  }

  lemma {:induction false} LeftShorter(a: seq<Jid>, b: seq<Jid>)
    requires a != [] && LeftOf(a, b)
    ensures LeftOf(a[1..], b)
    decreases |b|, 1
  {
    if b != [] {
      if a[0] == b[0] {
        LeftWider(a[1..], b);
      } else {
        LeftShorter(a, b[1..]);
        LeftWider(a[1..], b);
      }
    }
  }

  lemma {:induction false} LeftItself(a: seq<Jid>)
    ensures LeftOf(a, a)
    decreases |a|
  {
    if a != [] {
      LeftItself(a[1..]);
    }
  }

  lemma {:induction false} LeftThen(a: seq<Jid>, b: seq<Jid>, w: seq<Jid>)
    requires LeftOf(a, b) && LeftOf(b, w)
    ensures LeftOf(a, w)
    decreases |w|
  {
    if w != [] {
      if b != [] && b[0] == w[0] {
        if a != [] && a[0] == b[0] {
          LeftThen(a[1..], b[1..], w[1..]);
        } else {
          LeftThen(a, b[1..], w[1..]);
          LeftWider(a, w);
        }
      } else {
        LeftThen(a, b, w[1..]);
        LeftWider(a, w);
      }
    }
  }

  lemma {:induction false} LeftWithout(w: seq<Jid>, k: nat)
    requires k < |w|
    ensures LeftOf(w[..k] + w[k + 1..], w)
    decreases |w|
  {
    var a := w[..k] + w[k + 1..];
    if k == 0 {
      assert a == w[1..];
      LeftItself(w[1..]);
      LeftWider(a, w);
    } else {
      LeftWithout(w[1..], k - 1);
      assert a[0] == w[0] && a[1..] == w[1..][..k - 1] + w[1..][k..];
    }
  }

  // ---- draining

  /** From s to r nothing is accepted or finished. */
  predicate SameTasks(s: Queue, r: Queue) {
    r.accepted == s.accepted && r.finished == s.finished
  }

  lemma StartsKeepList(s: Queue, g: Jid, run: RunId)
    ensures StartMessages(s, g).waiting == s.waiting && EndMessages(s, g, run).waiting == s.waiting
    ensures SameTasks(s, StartMessages(s, g)) && SameTasks(s, EndMessages(s, g, run))
    ensures |Get(s, g).pendingTasks| > 0 ==>
              StartQueued(s, g).waiting == s.waiting && SameTasks(s, StartQueued(s, g))
  {
    hide AssertReports, TransitionReports;
  }

  lemma {:induction false} DrainLeaves(c: Limits, s: Queue)
    ensures LeftOf(DrainWaiting(c, s).waiting, s.waiting) && SameTasks(s, DrainWaiting(c, s))
    decreases |s.waiting|, 0, 0
  {
    hide NextIndex, StartQueued, RunForGroup, LeftOf;
    LeftItself(s.waiting);
    var k := NextIndex(c, s);
    if |s.waiting| > 0 && s.activeCount < EffectiveMax(c, s) && k < |s.waiting| {
      var g, s1 := s.waiting[k], Unlist(s, k);
      LeftWithout(s.waiting, k);
      var u := if Get(s1, g).pendingMessages then RunForGroup(c, s1, g) else StartQueued(s1, g);
      if Get(s1, g).pendingMessages {
        RunLeaves(c, s1, g);
      } else {
        StartsKeepList(s1, g, 0);
        LeftItself(s1.waiting);
      }
      DrainLeaves(c, u);
      LeftThen(u.waiting, s1.waiting, s.waiting);
      LeftThen(DrainWaiting(c, u).waiting, u.waiting, s.waiting);
    }
  }

  lemma {:induction false} RunLeaves(c: Limits, s: Queue, g: Jid)
    ensures LeftOf(RunForGroup(c, s, g).waiting, s.waiting) && SameTasks(s, RunForGroup(c, s, g))
    decreases |s.waiting|, 1, 1
  {
    hide StartMessages, EndMessages, DrainGroup, LeftOf;
    var s1 := StartMessages(s, g);
    StartsKeepList(s, g, 0);
    LeftItself(s.waiting);
    if !s.handler {
      NothingPends(s, g);
      StartsKeepList(s1, g, s.nextRun);
      GroupLeaves(c, EndMessages(s1, g, s.nextRun), g);
    }
  }

  lemma NothingPends(s: Queue, g: Jid)
    ensures StartMessages(s, g).handler == s.handler
    ensures !Get(EndMessages(StartMessages(s, g), g, s.nextRun), g).pendingMessages
  {
    hide AssertReports, TransitionReports;
  }

  lemma {:induction false} GroupLeaves(c: Limits, s: Queue, g: Jid)
    ensures LeftOf(DrainGroup(c, s, g).waiting, s.waiting) && SameTasks(s, DrainGroup(c, s, g))
    decreases |s.waiting|, 1, if Get(s, g).pendingMessages then 2 else 0
  {
    hide StartQueued, RunForGroup, DrainWaiting, LeftOf;
    LeftItself(s.waiting);
    if s.shuttingDown {
    } else if |Get(s, g).pendingTasks| > 0 {
      StartsKeepList(s, g, 0);
    } else if Get(s, g).pendingMessages {
      RunLeaves(c, s, g);
    } else {
      DrainLeaves(c, s);
    }
  }

  // ---- who is listed

  predicate Full(c: Limits, s: Queue) {
    s.activeCount >= EffectiveMax(c, s)
  }

  /** A message check of an idle group finds no handler, or no slot and no backoff; a new task for an idle group finds
      no slot. A retry is a message check without a backoff. */
  predicate Waits(c: Limits, s: Queue, e: Event) {
    && !s.shuttingDown
    && match e
       case MessageCheck(g, _, now) =>
         Get(s, g).runPhase == Idle && (!s.handler || (Full(c, s) && !Backoff(Get(s, g), now)))
       case RetryFires(g, now) => Get(s, g).runPhase == Idle && (!s.handler || Full(c, s))
       case TaskRequest(g, t) =>
         && Get(s, g).runPhase == Idle && Get(s, g).runningTaskId != Some(t) && t !in Get(s, g).pendingTasks
         && (Full(c, s) || s.activeTaskCount >= c.MaxTasks())
       case _ => false
  }

  predicate Drainer(e: Event) {
    e.SetHandler? || e.RecoveryEnds? || e.MessageRunEnds? || e.TaskRunEnds?
  }

  lemma CheckLists(c: Limits, s: Queue, g: Jid, now: int)
    ensures CheckMessages(c, s, g, now).waiting
         == var st := Get(s, g);
            if st.runPhase == Idle && (!s.handler || (Full(c, s) && !Backoff(st, now))) && g !in s.waiting
            then s.waiting + [g] else s.waiting
  {
    hide StartMessages, EffectiveMax, Backoff;
    StartsKeepList(s, g, 0);
  }

  lemma TaskLists(c: Limits, s: Queue, g: Jid, t: TaskId)
    ensures QueueTask(c, s, g, t).waiting
         == if Get(s, g).runPhase == Idle && (Full(c, s) || s.activeTaskCount >= c.MaxTasks()) && g !in s.waiting
            then s.waiting + [g] else s.waiting
  {
    hide AssertReports, TransitionReports, EffectiveMax;
  }

  /** A block that drains only takes groups off the list, and leaves the others in their order. Any other puts its own
      group at the end of the list, exactly when the group has to wait and is not there yet, and moves nobody. */
  lemma StepLists(c: Limits, s: Queue, e: Event)
    requires Enabled(s, e)
    ensures var r := Step(c, s, e);
            if Drainer(e) then LeftOf(r.waiting, s.waiting)
            else r.waiting == if Waits(c, s, e) && e.g !in s.waiting then s.waiting + [e.g] else s.waiting
  {
    hide LeftOf, DrainWaiting, DrainGroup, CheckMessages, QueueTask, AssertReports, TransitionReports, Pow2,
         EffectiveMax, ShutdownReports;
    match e
    case SetHandler => DrainLeaves(c, s.(handler := true));
    case RecoveryEnds => DrainLeaves(c, s.(recoveryMode := false));
    case MessageRunEnds(g, run, outcome, now) => GroupLeaves(c, Ended(s, g, run, outcome, now), g);
    case TaskRunEnds(g, t) => GroupLeaves(c, EndTask(s, g, t), g);
    case MessageCheck(g, ipcDir, now) =>
      NoteKeepsFull(c, s, NoteIpc(s, g, ipcDir));
      CheckLists(c, NoteIpc(s, g, ipcDir), g, now);
    case RetryFires(g, now) => RetryLists(c, s, g, now);
    case TaskRequest(g, t) =>
      NoteKeepsFull(c, s, Accept(Touch(s, g), g, t));
      TaskLists(c, Accept(Touch(s, g), g, t), g, t);
    case _ =>
  }

  lemma NoteKeepsFull(c: Limits, s: Queue, r: Queue)
    requires r.activeCount == s.activeCount && r.recoveryMode == s.recoveryMode
    ensures Full(c, r) == Full(c, s)
  {
  }

  lemma RetryLists(c: Limits, s: Queue, g: Jid, now: int)
    ensures OnRetryFires(c, s, g, now).waiting
         == if Waits(c, s, RetryFires(g, now)) && g !in s.waiting then s.waiting + [g] else s.waiting
  {
    hide CheckMessages, EffectiveMax;
    var s1 := Put(s, g, Get(s, g).(retryTimer := false, retryScheduledAt := None));
    var s2 := NoteIpc(s1, g, false);
    NoteKeepsFull(c, s, s2);
    CheckLists(c, s2, g, now);
  }

  // ---- which tasks are accepted

  lemma RequestAccepts(c: Limits, s: Queue, g: Jid, t: TaskId)
    ensures SameTasks(s, QueueTask(c, s, g, t))
  {
    hide AssertReports, TransitionReports, EffectiveMax;
  }

  lemma CheckAccepts(c: Limits, s: Queue, g: Jid, now: int)
    ensures SameTasks(s, CheckMessages(c, s, g, now))
  {
    hide StartMessages, EffectiveMax, Backoff;
    StartsKeepList(s, g, 0);
  }

  /** A task is accepted exactly when it is requested before shutdown and its group neither runs it nor has it
      pending, and finished exactly when a run of it ends. */
  lemma StepAccepts(c: Limits, s: Queue, e: Event)
    requires Enabled(s, e)
    ensures Step(c, s, e).accepted
         == if e.TaskRequest? && !s.shuttingDown
               && Get(s, e.g).runningTaskId != Some(e.t) && e.t !in Get(s, e.g).pendingTasks
            then s.accepted + multiset{(e.g, e.t)} else s.accepted
    ensures Step(c, s, e).finished == if e.TaskRunEnds? then s.finished + multiset{(e.g, e.t)} else s.finished
  {
    hide LeftOf, DrainWaiting, DrainGroup, CheckMessages, QueueTask, AssertReports, TransitionReports, Pow2,
         ShutdownReports;
    match e
    case SetHandler => DrainLeaves(c, s.(handler := true));
    case RecoveryEnds => DrainLeaves(c, s.(recoveryMode := false));
    case MessageRunEnds(g, run, outcome, now) => GroupLeaves(c, Ended(s, g, run, outcome, now), g);
    case TaskRunEnds(g, t) => GroupLeaves(c, EndTask(s, g, t), g);
    case MessageCheck(g, ipcDir, now) => CheckAccepts(c, NoteIpc(s, g, ipcDir), g, now);
    case RetryFires(g, now) =>
      CheckAccepts(c, NoteIpc(Put(s, g, Get(s, g).(retryTimer := false, retryScheduledAt := None)), g, false), g, now);
    case TaskRequest(g, t) => RequestAccepts(c, Accept(Touch(s, g), g, t), g, t);
    case _ =>
  }
}
