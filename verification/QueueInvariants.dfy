/** What every block of the scheduler keeps: slot accounting, conservation and order of tasks,
    and no lost wake-up. */
module QueueInvariants {
  import opened Basics
  import opened QueueState
  import opened QueueSteps

  /** The counters are the numbers of runs in flight. */
  ghost predicate Counted(s: Queue) {
    s.activeCount == |s.msgRuns| + |s.taskRuns| && s.activeTaskCount == |s.taskRuns|
  }

  /** How often the group has the task pending: ids in the queue are distinct. */
  function PendingCount(s: Queue, g: Jid, t: TaskId): nat {
    if t in Get(s, g).pendingTasks then 1 else 0
  }

  /** Every acceptance of a task is exactly one of pending, in flight or finished. */
  ghost predicate TasksConserved(s: Queue, g: Jid) {
    forall t :: s.accepted[(g, t)] == PendingCount(s, g, t) + s.taskRuns[(g, t)] + s.finished[(g, t)]
  }

  /** A busy phase names a run that is in flight. */
  ghost predicate PhaseBacked(s: Queue, g: Jid) {
    var st := Get(s, g);
    match st.runPhase
    case Idle => true
    case RunningTask => st.runningTaskId.Some? && (g, st.runningTaskId.value) in s.taskRuns
    case RunningMessages => st.currentRunId.Some? && (g, st.currentRunId.value) in s.msgRuns
    case ClosingMessages => st.currentRunId.Some? && (g, st.currentRunId.value) in s.msgRuns
  }

  ghost predicate GroupOk(s: Queue, g: Jid) {
    var st := Get(s, g);
    && NoDuplicates(st.pendingTasks)
    && st.pushed == st.shifted + st.pendingTasks
    && TasksConserved(s, g)
    && (forall r :: s.msgRuns[(g, r)] <= if r < s.nextRun then 1 else 0)
    && PhaseBacked(s, g)
    && (st.retryScheduledAt.Some? ==> st.retryTimer)
  }

  ghost predicate Core(s: Queue) {
    NoDuplicates(s.waiting) && Counted(s) && forall g :: GroupOk(s, g)
  }

  /** Pending work of an idle group will be looked at again. */
  ghost predicate Wake(s: Queue, g: Jid) {
    var st := Get(s, g);
    && (st.pendingMessages ==> st.runPhase != Idle || g in s.waiting || st.retryTimer)
    && (|st.pendingTasks| > 0 ==> st.runPhase != Idle || g in s.waiting)
  }

  ghost predicate WakeBut(s: Queue, g: Jid) {
    !s.shuttingDown ==> forall h :: h != g ==> Wake(s, h)
  }

  ghost predicate Inv(s: Queue) {
    Core(s) && (!s.shuttingDown ==> forall g :: Wake(s, g))
  }

  // ---- blocks that touch one group

  /** From s to r nothing about any group but g has changed. */
  ghost predicate OnlyGroup(s: Queue, r: Queue, g: Jid) {
    && r.shuttingDown == s.shuttingDown
    && s.nextRun <= r.nextRun
    && (forall h :: h != g ==> Get(r, h) == Get(s, h))
    && (forall h :: h != g && h in s.waiting ==> h in r.waiting)
    && (forall p: (Jid, RunId) :: p.0 != g ==> r.msgRuns[p] == s.msgRuns[p])
    && (forall p: (Jid, TaskId) :: p.0 != g ==>
          r.taskRuns[p] == s.taskRuns[p] && r.accepted[p] == s.accepted[p] && r.finished[p] == s.finished[p])
  }

  lemma OneGroupCore(s: Queue, r: Queue, g: Jid)
    requires Core(s) && OnlyGroup(s, r, g)
    requires NoDuplicates(r.waiting) && Counted(r) && GroupOk(r, g)
    ensures Core(r)
    ensures WakeBut(s, g) ==> WakeBut(r, g)
    ensures WakeBut(s, g) && Wake(r, g) ==> Inv(r)
  {
    forall h | h != g ensures GroupOk(r, h) && (Wake(s, h) ==> Wake(r, h)) {
      assert GroupOk(s, h) && Get(r, h) == Get(s, h);
      forall t ensures r.accepted[(h, t)]
                       == PendingCount(r, h, t) + r.taskRuns[(h, t)] + r.finished[(h, t)] {
        assert (h, t).0 != g;
      }
      forall run ensures r.msgRuns[(h, run)] <= if run < r.nextRun then 1 else 0 {
        assert (h, run).0 != g;
      }
    }
  }

  lemma StartMessagesCore(s: Queue, g: Jid)
    requires Core(s)
    ensures Core(StartMessages(s, g))
    ensures WakeBut(s, g) ==> Inv(StartMessages(s, g))
  {
    var r := StartMessages(s, g);
    assert OnlyGroup(s, r, g);
    assert GroupOk(r, g) by {
      assert GroupOk(s, g);
    }
    OneGroupCore(s, r, g);
  }

  /** The local part of the invariant, for the two blocks that move tasks in the queue. */
  lemma StartQueuedLocal(s: Queue, g: Jid)
    requires GroupOk(s, g) && |Get(s, g).pendingTasks| > 0
    ensures GroupOk(StartQueued(s, g), g)
  {
    var p, r := Get(s, g).pendingTasks, StartQueued(s, g);
    DistinctTail(p);
    assert forall t :: t in p <==> t == p[0] || t in p[1..];
    assert TasksConserved(r, g);
  }

  lemma PushLocal(s: Queue, g: Jid, t: TaskId)
    requires GroupOk(s, g) && t !in Get(s, g).pendingTasks
    ensures GroupOk(Push(Accept(s, g, t), g, t), g)
  {
    var r := Push(Accept(s, g, t), g, t);
    DistinctSnoc(Get(s, g).pendingTasks, t);
    assert TasksConserved(r, g);
  }

  lemma StartQueuedCore(s: Queue, g: Jid)
    requires Core(s) && |Get(s, g).pendingTasks| > 0
    ensures Core(StartQueued(s, g))
    ensures WakeBut(s, g) ==> Inv(StartQueued(s, g))
  {
    var r := StartQueued(s, g);
    assert OnlyGroup(s, r, g);
    assert GroupOk(r, g) by {
      StartQueuedLocal(s, g);
    }
    OneGroupCore(s, r, g);
  }

  lemma AcceptAndStartCore(s: Queue, g: Jid, t: TaskId)
    requires Inv(s)
    ensures Inv(StartTask(Accept(s, g, t), g, t))
  {
    var r := StartTask(Accept(s, g, t), g, t);
    assert OnlyGroup(s, r, g);
    assert GroupOk(r, g) by {
      assert GroupOk(s, g);
    }
    OneGroupCore(s, r, g);
  }

  lemma AcceptAndPushCore(s: Queue, g: Jid, t: TaskId)
    requires Core(s) && WakeBut(s, g) && t !in Get(s, g).pendingTasks
    ensures Core(Push(Accept(s, g, t), g, t)) && WakeBut(Push(Accept(s, g, t), g, t), g)
  {
    var r := Push(Accept(s, g, t), g, t);
    assert OnlyGroup(s, r, g);
    assert GroupOk(r, g) by {
      PushLocal(s, g, t);
    }
    OneGroupCore(s, r, g);
  }

  lemma EndMessagesCore(s: Queue, g: Jid, run: RunId)
    requires Core(s) && (g, run) in s.msgRuns && WakeBut(s, g)
    ensures Core(EndMessages(s, g, run)) && WakeBut(EndMessages(s, g, run), g)
  {
    var r := EndMessages(s, g, run);
    assert OnlyGroup(s, r, g);
    assert GroupOk(r, g) by {
      assert GroupOk(s, g);
    }
    OneGroupCore(s, r, g);
  }

  lemma EndTaskCore(s: Queue, g: Jid, t: TaskId)
    requires Core(s) && (g, t) in s.taskRuns && WakeBut(s, g)
    ensures Core(EndTask(s, g, t)) && WakeBut(EndTask(s, g, t), g)
  {
    var r := EndTask(s, g, t);
    assert OnlyGroup(s, r, g);
    assert GroupOk(r, g) by {
      assert GroupOk(s, g);
    }
    OneGroupCore(s, r, g);
  }

  /** The record `st` may stand for `o`: same tasks and runs, at most closing more. */
  ghost predicate SameWork(o: Group, st: Group) {
    && st.pendingTasks == o.pendingTasks && st.pushed == o.pushed && st.shifted == o.shifted
    && st.currentRunId == o.currentRunId && st.runningTaskId == o.runningTaskId
    && (st.runPhase == o.runPhase || (o.runPhase == RunningMessages && st.runPhase == ClosingMessages))
    && (st.retryScheduledAt.Some? ==> st.retryTimer)
  }

  lemma PutCore(s: Queue, g: Jid, st: Group, reported: bool)
    requires Core(s) && WakeBut(s, g) && SameWork(Get(s, g), st)
    ensures var r := Put(s, g, st).(reported := reported);
            Core(r) && WakeBut(r, g) && (Wake(r, g) ==> Inv(r))
  {
    var r := Put(s, g, st).(reported := reported);
    assert OnlyGroup(s, r, g);
    assert GroupOk(r, g) by {
      assert GroupOk(s, g);
    }
    OneGroupCore(s, r, g);
  }

  lemma TouchCore(s: Queue, g: Jid)
    requires Core(s) && WakeBut(s, g)
    ensures var r := Touch(s, g);
            Core(r) && WakeBut(r, g) && (Wake(s, g) ==> Inv(r)) && Get(r, g) == Get(s, g)
  {
    var r := Touch(s, g);
    assert OnlyGroup(s, r, g);
    assert GroupOk(r, g) by {
      assert GroupOk(s, g);
    }
    OneGroupCore(s, r, g);
  }

  lemma ListCore(s: Queue, g: Jid)
    requires Core(s) && WakeBut(s, g)
    ensures Inv(List(s, g))
  {
    hide AssertReports, TransitionReports;
    var r := List(s, g);
    assert NoDuplicates(r.waiting) && g in r.waiting && forall h :: h in s.waiting ==> h in r.waiting by {
      if g !in s.waiting {
        DistinctSnoc(s.waiting, g);
      }
    }
    assert OnlyGroup(s, r, g);
    assert GroupOk(r, g) by {
      assert GroupOk(s, g);
    }
    assert Wake(r, g);
    OneGroupCore(s, r, g);
  }

  lemma UnlistCore(s: Queue, k: nat)
    requires k < |s.waiting| && Core(s) && WakeBut(s, s.waiting[k])
    ensures Core(Unlist(s, k)) && WakeBut(Unlist(s, k), s.waiting[k])
  {
    var g, r := s.waiting[k], Unlist(s, k);
    forall h | h != g && h in s.waiting ensures h in r.waiting {
      var i :| 0 <= i < |s.waiting| && s.waiting[i] == h;
      assert r.waiting[if i < k then i else i - 1] == h;
    }
    assert OnlyGroup(s, r, g);
    assert GroupOk(r, g) by {
      assert GroupOk(s, g);
    }
    OneGroupCore(s, r, g);
  }

  // ---- draining

  lemma {:induction false} DrainWaitingInv(c: Limits, s: Queue)
    requires Inv(s)
    ensures Inv(DrainWaiting(c, s))
    decreases |s.waiting|, 0, 0
  {
    var k := NextIndex(c, s);
    if |s.waiting| > 0 && s.activeCount < EffectiveMax(c, s) && k < |s.waiting| {
      var g := s.waiting[k];
      var s1 := Unlist(s, k);
      UnlistCore(s, k);
      if Get(s1, g).pendingMessages {
        RunForGroupInv(c, s1, g);
        DrainWaitingInv(c, RunForGroup(c, s1, g));
      } else {
        StartQueuedCore(s1, g);
        DrainWaitingInv(c, StartQueued(s1, g));
      }
    }
  }

  lemma {:induction false} RunForGroupInv(c: Limits, s: Queue, g: Jid)
    requires Core(s) && WakeBut(s, g)
    ensures Inv(RunForGroup(c, s, g))
    decreases |s.waiting|, 1, 1
  {
    StartMessagesCore(s, g);
    var s1 := StartMessages(s, g);
    if !s.handler {
      assert (g, s.nextRun) in s1.msgRuns;
      EndMessagesCore(s1, g, s.nextRun);
      DrainGroupInv(c, EndMessages(s1, g, s.nextRun), g);
    }
  }

  lemma {:induction false} DrainGroupInv(c: Limits, s: Queue, g: Jid)
    requires Core(s) && WakeBut(s, g)
    ensures Inv(DrainGroup(c, s, g))
    decreases |s.waiting|, 1, if Get(s, g).pendingMessages then 2 else 0
  {
    if s.shuttingDown {
    } else if |Get(s, g).pendingTasks| > 0 {
      StartQueuedCore(s, g);
    } else if Get(s, g).pendingMessages {
      RunForGroupInv(c, s, g);
    } else {
      assert Wake(s, g);
      DrainWaitingInv(c, s);
    }
  }

  // ---- events

  lemma MarkPendingCore(s: Queue, g: Jid)
    requires Core(s) && WakeBut(s, g)
    ensures var m := MarkPending(s, g);
            && Core(m) && WakeBut(m, g) && m.shuttingDown == s.shuttingDown && (Wake(m, g) ==> Inv(m))
  {
    assert GroupOk(s, g);
    PutCore(s, g, Get(s, g).(pendingMessages := true), s.reported);
    assert MarkPending(s, g) == Put(s, g, Get(s, g).(pendingMessages := true)).(reported := s.reported);
  }

  lemma NoteIpcCore(s: Queue, g: Jid, ipcDir: bool)
    requires Core(s) && WakeBut(s, g)
    ensures Core(NoteIpc(s, g, ipcDir)) && WakeBut(NoteIpc(s, g, ipcDir), g)
  {
    var st := Get(s, g).(hasIpcDir := Get(s, g).hasIpcDir || ipcDir);
    assert GroupOk(s, g);
    PutCore(s, g, st, s.reported);
    assert NoteIpc(s, g, ipcDir) == Put(s, g, st).(reported := s.reported);
  }

  lemma CheckMessagesInv(c: Limits, s: Queue, g: Jid, now: int)
    requires Core(s) && WakeBut(s, g) && !s.shuttingDown
    requires |Get(s, g).pendingTasks| > 0 ==> Get(s, g).runPhase != Idle || g in s.waiting
    ensures Inv(CheckMessages(c, s, g, now))
  {
    var st := Get(s, g);
    if st.runPhase == Idle && s.handler && !Backoff(st, now) && s.activeCount < EffectiveMax(c, s) {
      StartMessagesCore(s, g);
    } else {
      MarkPendingCore(s, g);
      if st.runPhase == Idle && (!s.handler || !Backoff(st, now)) {
        ListCore(MarkPending(s, g), g);
      } else {
        assert GroupOk(s, g);
      }
    }
  }

  lemma MessageCheckInv(c: Limits, s: Queue, g: Jid, ipcDir: bool, now: int)
    requires Core(s) && WakeBut(s, g) && !s.shuttingDown
    requires |Get(s, g).pendingTasks| > 0 ==> Get(s, g).runPhase != Idle || g in s.waiting
    ensures Inv(OnMessageCheck(c, s, g, ipcDir, now))
  {
    NoteIpcCore(s, g, ipcDir);
    CheckMessagesInv(c, NoteIpc(s, g, ipcDir), g, now);
  }

  lemma TaskRequestInv(c: Limits, s0: Queue, g: Jid, t: TaskId)
    requires Inv(s0) && !s0.shuttingDown
    ensures Inv(OnTaskRequest(c, s0, g, t))
  {
    assert Wake(s0, g);
    TouchCore(s0, g);
    var s := Touch(s0, g);
    var st := Get(s, g);
    if Duplicate(st, t) {
    } else if st.runPhase != Idle {
      AcceptAndPushCore(s, g, t);
      var r := Push(Accept(s, g, t), g, t);
      assert Wake(s, g) && Wake(r, g);
    } else if s.activeCount >= EffectiveMax(c, s) || s.activeTaskCount >= c.MaxTasks() {
      AcceptAndPushCore(s, g, t);
      ListCore(Push(Accept(s, g, t), g, t), g);
    } else {
      AcceptAndStartCore(s, g, t);
    }
  }

  lemma ShutdownInv(s: Queue)
    requires Core(s)
    ensures Inv(OnShutdown(s))
  {
    var r := OnShutdown(s);
    forall g ensures GroupOk(r, g) {
      assert GroupOk(s, g);
      assert Get(r, g).pendingTasks == Get(s, g).pendingTasks;
      assert TasksConserved(r, g);
    }
  }

  lemma EndedCore(s: Queue, g: Jid, run: RunId, outcome: Outcome, now: int)
    requires Inv(s) && (g, run) in s.msgRuns
    ensures Core(Ended(s, g, run, outcome, now)) && WakeBut(Ended(s, g, run, outcome, now), g)
  {
    var st := AfterOutcome(Get(s, g), outcome, now);
    assert SameWork(Get(s, g), st) by {
      assert GroupOk(s, g);
    }
    PutCore(s, g, st, s.reported);
    assert Put(s, g, st) == Put(s, g, st).(reported := s.reported);
    EndMessagesCore(Put(s, g, st), g, run);
  }

  lemma RetryFiresInv(c: Limits, s: Queue, g: Jid, now: int)
    requires Inv(s)
    ensures Inv(OnRetryFires(c, s, g, now))
  {
    var st := Get(s, g).(retryTimer := false, retryScheduledAt := None);
    var s1 := Put(s, g, st);
    assert s1 == Put(s, g, st).(reported := s.reported);
    PutCore(s, g, st, s.reported);
    if !s.shuttingDown {
      assert Wake(s, g);
      MessageCheckInv(c, s1, g, false, now);
    }
  }

  lemma RegisterProcessInv(s: Queue, g: Jid, ipcDir: bool)
    requires Inv(s)
    ensures Inv(OnRegisterProcess(s, g, ipcDir))
  {
    TouchCore(s, g);
    var s1 := Touch(s, g);
    var st := Get(s1, g);
    var st1 := st.(hasProcess := true, hasIpcDir := st.hasIpcDir || ipcDir);
    assert GroupOk(s1, g);
    PutCore(s1, g, st1, s1.reported);
    assert Put(s1, g, st1) == Put(s1, g, st1).(reported := s1.reported);
    if !s.shuttingDown {
      assert Wake(s, g) && Wake(Put(s1, g, st1), g);
    }
  }

  lemma CloseStdinInv(s: Queue, g: Jid)
    requires Inv(s)
    ensures Inv(OnCloseStdin(s, g))
  {
    TouchCore(s, g);
    var s1 := Touch(s, g);
    var st := Get(s1, g);
    assert GroupOk(s1, g);
    PutCore(s1, g, CloseGroup(st), s1.reported || CloseReports(st));
    if !s.shuttingDown {
      assert Wake(s, g) && Wake(OnCloseStdin(s, g), g);
    }
  }

  /** Every block keeps the invariant. */
  lemma StepInv(c: Limits, s: Queue, e: Event)
    requires Inv(s) && Enabled(s, e)
    ensures Inv(Step(c, s, e))
  {
    match e
    case SetHandler =>
      SameGroupsInv(s, s.(handler := true));
      DrainWaitingInv(c, s.(handler := true));
    case EnterRecovery => SameGroupsInv(s, s.(recoveryMode := true));
    case RecoveryEnds =>
      SameGroupsInv(s, s.(recoveryMode := false));
      DrainWaitingInv(c, s.(recoveryMode := false));
    case MessageCheck(g, ipcDir, now) =>
      if !s.shuttingDown {
        assert Wake(s, g);
        MessageCheckInv(c, s, g, ipcDir, now);
      }
    case TaskRequest(g, t) =>
      if !s.shuttingDown {
        TaskRequestInv(c, s, g, t);
      }
    case RegisterProcess(g, ipcDir) => RegisterProcessInv(s, g, ipcDir);
    case CloseStdin(g) => CloseStdinInv(s, g);
    case MessageRunEnds(g, run, outcome, now) =>
      EndedCore(s, g, run, outcome, now);
      DrainGroupInv(c, Ended(s, g, run, outcome, now), g);
    case TaskRunEnds(g, t) =>
      EndTaskCore(s, g, t);
      DrainGroupInv(c, EndTask(s, g, t), g);
    case RetryFires(g, now) => RetryFiresInv(c, s, g, now);
    case Shutdown => ShutdownInv(s);
  }

  lemma SameGroupsInv(s: Queue, r: Queue)
    requires Inv(s) && r == s.(handler := r.handler, recoveryMode := r.recoveryMode)
    ensures Inv(r)
  {
    assert GroupOk(s, "") ;
    forall g ensures GroupOk(r, g) {
      assert GroupOk(s, g);
      assert TasksConserved(s, g) ==> TasksConserved(r, g);
    }
    assert forall g :: Wake(s, g) ==> Wake(r, g);
  }

  /** After any history the invariant holds. */
  lemma {:induction false} ReachableInv(c: Limits, es: seq<Event>)
    ensures Inv(Exec(c, EMPTY_QUEUE, es))
    decreases |es|
  {
    if es == [] {
      assert forall g :: Get(EMPTY_QUEUE, g) == FRESH_GROUP;
    } else {
      var p := Exec(c, EMPTY_QUEUE, es[..|es| - 1]);
      ReachableInv(c, es[..|es| - 1]);
      if Enabled(p, es[|es| - 1]) {
        StepInv(c, p, es[|es| - 1]);
      }
    }
  }

  // ---- what the invariant says of every history

  /** No lost wake-up: before shutdown, pending work of a group has someone who will look at it. */
  lemma {:induction false} NoLostWakeUp(c: Limits, es: seq<Event>, g: Jid)
    ensures var s := Exec(c, EMPTY_QUEUE, es);
            var st := Get(s, g);
            && (st.retryScheduledAt.Some? ==> st.retryTimer)
            && (!s.shuttingDown ==>
                  && (st.pendingMessages ==> st.runPhase != Idle || g in s.waiting || st.retryTimer)
                  && (|st.pendingTasks| > 0 ==> st.runPhase != Idle || g in s.waiting))
  {
    ReachableInv(c, es);
    var s := Exec(c, EMPTY_QUEUE, es);
    assert GroupOk(s, g);
    if !s.shuttingDown {
      assert Wake(s, g);
    }
  }

  /** Every acceptance of a task is in exactly one place; ids in a queue are distinct; and what
      left the queue is a prefix of what entered it, so queued tasks start in enqueue order. */
  lemma {:induction false} TaskConservation(c: Limits, es: seq<Event>, g: Jid, t: TaskId)
    ensures var s := Exec(c, EMPTY_QUEUE, es);
            var st := Get(s, g);
            && s.accepted[(g, t)] == (if t in st.pendingTasks then 1 else 0) + s.taskRuns[(g, t)] + s.finished[(g, t)]
            && NoDuplicates(st.pendingTasks)
            && st.shifted <= st.pushed && st.pushed[|st.shifted|..] == st.pendingTasks
  {
    ReachableInv(c, es);
    var s := Exec(c, EMPTY_QUEUE, es);
    assert GroupOk(s, g);
    assert s.accepted[(g, t)] == PendingCount(s, g, t) + s.taskRuns[(g, t)] + s.finished[(g, t)];
  }

  /** The counters are the numbers of runs in flight, and the waiting list has no duplicates. */
  lemma {:induction false} SlotAccounting(c: Limits, es: seq<Event>)
    ensures var s := Exec(c, EMPTY_QUEUE, es);
            && s.activeCount == |s.msgRuns| + |s.taskRuns|
            && s.activeTaskCount == |s.taskRuns|
            && NoDuplicates(s.waiting)
  {
    ReachableInv(c, es);
  }
}
