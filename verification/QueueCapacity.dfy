/** Slots: how many runs there can be, and when pending work may have to wait. */
module QueueCapacity {
  import opened Basics
  import opened QueueState
  import opened QueueSteps
  import opened QueueInvariants
  import opened QueueOneRun

  // ---- upper bounds

  lemma {:induction false} DrainWaitingBound(c: Limits, s: Queue)
    ensures DrainWaiting(c, s).activeCount <= Max(s.activeCount, EffectiveMax(c, s))
    decreases |s.waiting|, 0, 0
  {
    hide AssertReports, TransitionReports, NextIndex, RunForGroup;
    var k := NextIndex(c, s);
    if |s.waiting| > 0 && s.activeCount < EffectiveMax(c, s) && k < |s.waiting| {
      var s1 := Unlist(s, k);
      if Get(s1, s.waiting[k]).pendingMessages {
        RunForGroupBound(c, s1, s.waiting[k]);
        DrainWaitingBound(c, RunForGroup(c, s1, s.waiting[k]));
      } else {
        DrainWaitingBound(c, StartQueued(s1, s.waiting[k]));
      }
    }
  }

  lemma {:induction false} RunForGroupBound(c: Limits, s: Queue, g: Jid)
    ensures RunForGroup(c, s, g).activeCount <= Max(s.activeCount + 1, EffectiveMax(c, s))
    decreases |s.waiting|, 1, 1
  {
    hide AssertReports, TransitionReports;
    if !s.handler {
      DrainGroupBound(c, EndMessages(StartMessages(s, g), g, s.nextRun), g);
    }
  }

  lemma {:induction false} DrainGroupBound(c: Limits, s: Queue, g: Jid)
    ensures DrainGroup(c, s, g).activeCount <= Max(s.activeCount + 1, EffectiveMax(c, s))
    decreases |s.waiting|, 1, if Get(s, g).pendingMessages then 2 else 0
  {
    hide AssertReports, TransitionReports, RunForGroup, DrainWaiting;
    if s.shuttingDown || |Get(s, g).pendingTasks| > 0 {
    } else if Get(s, g).pendingMessages {
      RunForGroupBound(c, s, g);
    } else {
      DrainWaitingBound(c, s);
    }
  }

  lemma MessageCheckCounts(c: Limits, s: Queue, g: Jid, ipcDir: bool, now: int)
    ensures var r := OnMessageCheck(c, s, g, ipcDir, now);
            && SameModes(s, r) && r.activeTaskCount == s.activeTaskCount
            && r.activeCount <= Max(s.activeCount, EffectiveMax(c, s))
  {
    hide AssertReports, TransitionReports;
  }

  lemma TaskRequestCounts(c: Limits, s: Queue, g: Jid, t: TaskId)
    ensures var r := OnTaskRequest(c, s, g, t);
            && SameModes(s, r)
            && r.activeTaskCount <= Max(s.activeTaskCount, c.MaxTasks())
            && r.activeCount <= Max(s.activeCount, EffectiveMax(c, s))
  {
    hide QueueTask, Duplicate;
    QueueTaskCounts(c, Accept(Touch(s, g), g, t), g, t);
  }

  lemma QueueTaskCounts(c: Limits, s: Queue, g: Jid, t: TaskId)
    ensures var r := QueueTask(c, s, g, t);
            && SameModes(s, r)
            && r.activeTaskCount <= Max(s.activeTaskCount, c.MaxTasks())
            && r.activeCount <= Max(s.activeCount, EffectiveMax(c, s))
  {
    hide StartTask, Push, AssertReports, TransitionReports;
    StartTaskCounts(s, g, t);
    PushCounts(s, g, t);
  }

  lemma StartTaskCounts(s: Queue, g: Jid, t: TaskId)
    ensures var r := StartTask(s, g, t);
            && SameModes(s, r)
            && r.activeCount == s.activeCount + 1 && r.activeTaskCount == s.activeTaskCount + 1
  {
    hide AssertReports, TransitionReports;
  }

  lemma PushCounts(s: Queue, g: Jid, t: TaskId)
    ensures var r := Push(s, g, t);
            SameModes(s, r) && r.activeCount == s.activeCount && r.activeTaskCount == s.activeTaskCount
  {
  }

  lemma RetryFiresCounts(c: Limits, s: Queue, g: Jid, now: int)
    ensures var r := OnRetryFires(c, s, g, now);
            && SameModes(s, r) && r.activeTaskCount == s.activeTaskCount
            && r.activeCount <= Max(s.activeCount, EffectiveMax(c, s))
  {
    MessageCheckCounts(c, Put(s, g, Get(s, g).(retryTimer := false, retryScheduledAt := None)), g, false, now);
  }

  /** A block never takes the number of runs above what it was or the limit then in force,
      although a finishing group restarts without looking at the limit. */
  lemma StepBound(c: Limits, s: Queue, e: Event)
    requires Enabled(s, e)
    ensures var r := Step(c, s, e);
            r.activeCount <= Max(s.activeCount, EffectiveMax(c, r))
  {
    hide OnMessageCheck, OnTaskRequest, OnRetryFires, DrainGroup, DrainWaiting, AssertReports, TransitionReports;
    match e
    case SetHandler => DrainWaitingBound(c, s.(handler := true));
    case RecoveryEnds => DrainWaitingBound(c, s.(recoveryMode := false));
    case MessageRunEnds(g, run, outcome, now) => DrainGroupBound(c, Ended(s, g, run, outcome, now), g);
    case TaskRunEnds(g, t) => DrainGroupBound(c, EndTask(s, g, t), g);
    case MessageCheck(g, ipcDir, now) => MessageCheckCounts(c, s, g, ipcDir, now);
    case RetryFires(g, now) => RetryFiresCounts(c, s, g, now);
    case TaskRequest(g, t) => TaskRequestCounts(c, s, g, t);
    case EnterRecovery =>
    case RegisterProcess(_, _) =>
    case CloseStdin(_) =>
    case Shutdown =>
  }

  /** The number of runs never exceeds the larger pool size. */
  lemma {:induction false} NeverAboveLimit(c: Limits, es: seq<Event>)
    requires 1 <= c.maxAgents
    ensures Exec(c, EMPTY_QUEUE, es).activeCount <= Max(c.maxAgents, c.recoveryAgents)
    decreases |es|
  {
    if es != [] {
      var p := Exec(c, EMPTY_QUEUE, es[..|es| - 1]);
      NeverAboveLimit(c, es[..|es| - 1]);
      if Enabled(p, es[|es| - 1]) {
        StepBound(c, p, es[|es| - 1]);
      }
    }
  }

  lemma StepKeepsRecovery(c: Limits, s: Queue, e: Event)
    requires Enabled(s, e) && s.recoveryMode && !e.RecoveryEnds?
    ensures Step(c, s, e).recoveryMode
  {
    match e
    case MessageCheck(g, ipcDir, now) => MessageCheckCounts(c, s, g, ipcDir, now);
    case RetryFires(g, now) => RetryFiresCounts(c, s, g, now);
    case TaskRequest(g, t) => TaskRequestCounts(c, s, g, t);
    case SetHandler =>
    case MessageRunEnds(_, _, _, _) =>
    case TaskRunEnds(_, _) =>
    case EnterRecovery =>
    case RegisterProcess(_, _) =>
    case CloseStdin(_) =>
    case Shutdown =>
  }

  /** During recovery the number of runs stays within the recovery pool or the count on entry. */
  lemma {:induction false} RecoveryBound(c: Limits, s: Queue, es: seq<Event>)
    requires s.recoveryMode && RecoveryEnds !in es
    ensures var r := Exec(c, s, es);
            r.recoveryMode && r.activeCount <= Max(s.activeCount, c.recoveryAgents)
    decreases |es|
  {
    if es != [] {
      var p := Exec(c, s, es[..|es| - 1]);
      RecoveryBound(c, s, es[..|es| - 1]);
      if Enabled(p, es[|es| - 1]) {
        StepKeepsRecovery(c, p, es[|es| - 1]);
        StepBound(c, p, es[|es| - 1]);
      }
    }
  }

  /** With a handler, a run end takes the task count above the task limit exactly when it frees no
      task slot, all task slots are taken, and its group has a task of its own waiting. */
  lemma TaskLimitStep(c: Limits, s: Queue, e: Event)
    requires Enabled(s, e) && s.handler && s.activeTaskCount <= c.MaxTasks()
    ensures Step(c, s, e).activeTaskCount <= c.MaxTasks()
            <==> !(e.MessageRunEnds? && !s.shuttingDown && s.activeTaskCount == c.MaxTasks()
                   && |Get(s, e.g).pendingTasks| > 0)
  {
    hide OnMessageCheck, OnTaskRequest, OnRetryFires, DrainGroup, DrainWaiting, AssertReports, TransitionReports;
    match e
    case SetHandler => DrainWaitingTasks(c, s.(handler := true));
    case RecoveryEnds => DrainWaitingTasks(c, s.(recoveryMode := false));
    case MessageRunEnds(g, run, outcome, now) => DrainGroupTasks(c, Ended(s, g, run, outcome, now), g);
    case TaskRunEnds(g, t) => DrainGroupTasks(c, EndTask(s, g, t), g);
    case MessageCheck(g, ipcDir, now) => MessageCheckCounts(c, s, g, ipcDir, now);
    case RetryFires(g, now) => RetryFiresCounts(c, s, g, now);
    case TaskRequest(g, t) => TaskRequestCounts(c, s, g, t);
    case EnterRecovery =>
    case RegisterProcess(_, _) =>
    case CloseStdin(_) =>
    case Shutdown =>
  }

  lemma DrainGroupTasks(c: Limits, s: Queue, g: Jid)
    requires s.handler && s.activeTaskCount <= c.MaxTasks()
    ensures var r := DrainGroup(c, s, g);
            if !s.shuttingDown && |Get(s, g).pendingTasks| > 0 then r.activeTaskCount == s.activeTaskCount + 1
            else r.activeTaskCount <= c.MaxTasks()
  {
    if !s.shuttingDown && |Get(s, g).pendingTasks| == 0 {
      if Get(s, g).pendingMessages {
        assert RunForGroup(c, s, g) == StartMessages(s, g);
      } else {
        DrainWaitingTasks(c, s);
      }
    }
  }

  lemma {:induction false} DrainWaitingTasks(c: Limits, s: Queue)
    requires s.handler && s.activeTaskCount <= c.MaxTasks()
    ensures DrainWaiting(c, s).activeTaskCount <= c.MaxTasks()
    decreases |s.waiting|
  {
    var k := NextIndex(c, s);
    if |s.waiting| > 0 && s.activeCount < EffectiveMax(c, s) && k < |s.waiting| {
      var s1 := Unlist(s, k);
      DrainWaitingTasks(c, if Get(s1, s.waiting[k]).pendingMessages
                           then StartMessages(s1, s.waiting[k]) else StartQueued(s1, s.waiting[k]));
    }
  }

  // ---- work conservation

  /** Nobody in the list could start. */
  ghost predicate NobodyReady(c: Limits, s: Queue) {
    forall h :: h in s.waiting ==> !Get(s, h).pendingMessages && !TaskReady(c, s, h)
  }

  lemma NobodyFound(c: Limits, s: Queue)
    requires NextIndex(c, s) == |s.waiting|
    ensures NobodyReady(c, s)
  {
    assert FirstMessage(s, 0) == |s.waiting| && FirstTask(c, s, 0) == |s.waiting|;
    forall h | h in s.waiting ensures !Get(s, h).pendingMessages && !TaskReady(c, s, h) {
      var i :| 0 <= i < |s.waiting| && s.waiting[i] == h;
    }
  }

  /** When draining stops, the slots are full or nobody listed could start, with a handler or without. */
  lemma {:induction false} DrainWaitingExit(c: Limits, s: Queue)
    ensures var r := DrainWaiting(c, s);
            r.activeCount >= EffectiveMax(c, r) || NobodyReady(c, r)
    decreases |s.waiting|
  {
    var k := NextIndex(c, s);
    if s.activeCount < EffectiveMax(c, s) {
      if k == |s.waiting| {
        NobodyFound(c, s);
        assert DrainWaiting(c, s) == s;
      } else {
        var g, s1 := s.waiting[k], Unlist(s, k);
        if Get(s1, g).pendingMessages {
          DrainWaitingExit(c, RunForGroup(c, s1, g));
        } else {
          DrainWaitingExit(c, StartQueued(s1, g));
        }
      }
    }
  }

  /** Two reasons for which pending work may have to wait: all slots are taken, or at least something runs.
      The second is for tasks as well. */
  datatype Reason = SlotsFull | SomethingRuns

  /** The pool sizes for which the reason is promised. */
  predicate Meant(c: Limits, k: Reason) {
    match k
    case SlotsFull => c.recoveryAgents <= c.maxAgents
    case SomethingRuns => 1 <= c.recoveryAgents && 1 <= c.maxAgents
  }

  predicate Idles(st: Group) {
    st.runPhase == Idle && st.pendingMessages && !st.retryTimer
  }

  /** Why the group may have to wait. */
  ghost predicate MayWait(c: Limits, k: Reason, s: Queue, st: Group) {
    match k
    case SlotsFull => Idles(st) ==> s.activeCount >= EffectiveMax(c, s)
    case SomethingRuns => Idles(st) || |st.pendingTasks| > 0 ==> s.activeCount > 0
  }

  ghost predicate GroupCap(c: Limits, k: Reason, s: Queue, g: Jid) {
    g in s.waiting ==> MayWait(c, k, s, Get(s, g))
  }

  ghost predicate CapBut(c: Limits, k: Reason, s: Queue, g: Jid) {
    s.handler && !s.shuttingDown ==> forall h :: h != g ==> GroupCap(c, k, s, h)
  }

  /** While a handler is set and before shutdown, every listed group has a reason to wait. */
  ghost predicate Cap(c: Limits, k: Reason, s: Queue) {
    s.handler && !s.shuttingDown ==> forall g :: GroupCap(c, k, s, g)
  }

  lemma OneGroupCap(c: Limits, k: Reason, s: Queue, r: Queue, g: Jid)
    requires CapBut(c, k, s, g) && SameModes(s, r) && s.activeCount <= r.activeCount
    requires forall h :: h != g ==> Get(r, h) == Get(s, h)
    requires forall h :: h in r.waiting ==> h in s.waiting || h == g
    ensures CapBut(c, k, r, g) && (GroupCap(c, k, r, g) ==> Cap(c, k, r))
  {
    if s.handler && !s.shuttingDown {
      forall h | h != g ensures GroupCap(c, k, r, h) {
        assert GroupCap(c, k, s, h) && Get(r, h) == Get(s, h);
      }
    }
  }

  lemma ListCap(c: Limits, k: Reason, s: Queue, g: Jid)
    requires CapBut(c, k, s, g) && MayWait(c, k, s, Get(s, g))
    ensures Cap(c, k, List(s, g))
  {
    OneGroupCap(c, k, s, List(s, g), g);
  }

  lemma DrainWaitingCap(c: Limits, k: Reason, s: Queue)
    requires Meant(c, k) && Inv(s)
    ensures Cap(c, k, DrainWaiting(c, s))
  {
    if s.handler && !s.shuttingDown {
      DrainWaitingExit(c, s);
      DrainWaitingInv(c, s);
    }
  }

  /** `s0` is the state before the run of g ended, `s` the state after. */
  lemma DrainGroupCap(c: Limits, k: Reason, s0: Queue, s: Queue, g: Jid)
    requires Meant(c, k) && Cap(c, k, s0) && Core(s) && WakeBut(s, g) && SameModes(s0, s)
    requires s0.activeCount == s.activeCount + 1 && s0.activeCount > 0 && s.waiting == s0.waiting
    requires forall h :: h != g ==> Get(s, h) == Get(s0, h)
    ensures Cap(c, k, DrainGroup(c, s, g))
  {
    if s.handler && !s.shuttingDown {
      if |Get(s, g).pendingTasks| > 0 {
        OneGroupCap(c, k, s0, StartQueued(s, g), g);
      } else if Get(s, g).pendingMessages {
        OneGroupCap(c, k, s0, StartMessages(s, g), g);
      } else {
        assert Wake(s, g);
        DrainWaitingCap(c, k, s);
      }
    }
  }

  lemma CheckMessagesCap(c: Limits, k: Reason, s: Queue, g: Jid, now: int)
    requires Meant(c, k) && CapBut(c, k, s, g) && !s.shuttingDown
    requires Get(s, g).retryScheduledAt.Some? ==> Get(s, g).retryTimer
    requires k.SomethingRuns? && s.handler && |Get(s, g).pendingTasks| > 0 ==> s.activeCount > 0
    ensures Cap(c, k, CheckMessages(c, s, g, now))
  {
    if s.handler {
      var st, m := Get(s, g), MarkPending(s, g);
      OneGroupCap(c, k, s, m, g);
      if st.runPhase != Idle || Backoff(st, now) {
        assert MayWait(c, k, m, Get(m, g));
      } else if s.activeCount >= EffectiveMax(c, s) {
        ListCap(c, k, m, g);
      } else {
        OneGroupCap(c, k, s, StartMessages(s, g), g);
      }
    }
  }

  lemma MessageCheckCap(c: Limits, k: Reason, s: Queue, g: Jid, ipcDir: bool, now: int)
    requires Meant(c, k) && CapBut(c, k, s, g) && !s.shuttingDown
    requires Get(s, g).retryScheduledAt.Some? ==> Get(s, g).retryTimer
    requires k.SomethingRuns? && s.handler && |Get(s, g).pendingTasks| > 0 ==> s.activeCount > 0
    ensures Cap(c, k, OnMessageCheck(c, s, g, ipcDir, now))
  {
    OneGroupCap(c, k, s, NoteIpc(s, g, ipcDir), g);
    CheckMessagesCap(c, k, NoteIpc(s, g, ipcDir), g, now);
  }

  /** A group with pending tasks never waits for nothing. */
  lemma TasksMeanRuns(c: Limits, k: Reason, s: Queue, g: Jid)
    requires Inv(s) && Cap(c, k, s) && s.handler && !s.shuttingDown
    ensures Get(s, g).runPhase != Idle ==> s.activeCount > 0
    ensures k.SomethingRuns? && |Get(s, g).pendingTasks| > 0 ==> s.activeCount > 0
  {
    assert GroupOk(s, g) && Wake(s, g) && GroupCap(c, k, s, g);
  }

  lemma QueueTaskCap(c: Limits, k: Reason, s: Queue, g: Jid, t: TaskId)
    requires Meant(c, k) && Cap(c, k, s) && Counted(s) && s.handler && !s.shuttingDown && Wake(s, g)
    requires Get(s, g).runPhase != Idle ==> s.activeCount > 0
    ensures Cap(c, k, QueueTask(c, s, g, t))
  {
    var p := Push(s, g, t);
    assert GroupCap(c, k, s, g);
    OneGroupCap(c, k, s, p, g);
    if Get(s, g).runPhase != Idle {
      assert MayWait(c, k, p, Get(p, g));
    } else if s.activeCount >= EffectiveMax(c, s) || s.activeTaskCount >= c.MaxTasks() {
      assert MayWait(c, k, p, Get(p, g));
      ListCap(c, k, p, g);
    } else {
      OneGroupCap(c, k, s, StartTask(s, g, t), g);
    }
  }

  lemma TaskRequestCap(c: Limits, k: Reason, s: Queue, g: Jid, t: TaskId)
    requires Meant(c, k) && Inv(s) && Cap(c, k, s) && !s.shuttingDown
    ensures Cap(c, k, OnTaskRequest(c, s, g, t))
  {
    hide QueueTask, Duplicate;
    if s.handler {
      var s1 := Touch(s, g);
      assert GroupCap(c, k, s, g) && Wake(s, g);
      OneGroupCap(c, k, s, s1, g);
      OneGroupCap(c, k, s1, Accept(s1, g, t), g);
      TasksMeanRuns(c, k, s, g);
      if !Duplicate(Get(s, g), t) {
        QueueTaskCap(c, k, Accept(s1, g, t), g, t);
      }
    } else {
      QueueTaskModes(c, Accept(Touch(s, g), g, t), g, t);
    }
  }

  lemma QueueTaskModes(c: Limits, s: Queue, g: Jid, t: TaskId)
    ensures SameModes(s, QueueTask(c, s, g, t))
  {
    hide AssertReports, TransitionReports;
  }

  lemma RetryFiresCap(c: Limits, k: Reason, s: Queue, g: Jid, now: int)
    requires Meant(c, k) && Inv(s) && Cap(c, k, s)
    ensures Cap(c, k, OnRetryFires(c, s, g, now))
  {
    if s.handler && !s.shuttingDown {
      var s1 := Put(s, g, Get(s, g).(retryTimer := false, retryScheduledAt := None));
      TasksMeanRuns(c, k, s, g);
      OneGroupCap(c, k, s, s1, g);
      MessageCheckCap(c, k, s1, g, false, now);
    }
  }

  lemma MessageRunEndsCap(c: Limits, k: Reason, s: Queue, g: Jid, run: RunId, outcome: Outcome, now: int)
    requires Meant(c, k) && Inv(s) && Cap(c, k, s) && (g, run) in s.msgRuns
    ensures Cap(c, k, OnMessageRunEnds(c, s, g, run, outcome, now))
  {
    EndedCore(s, g, run, outcome, now);
    DrainGroupCap(c, k, s, Ended(s, g, run, outcome, now), g);
  }

  lemma TaskRunEndsCap(c: Limits, k: Reason, s: Queue, g: Jid, t: TaskId)
    requires Meant(c, k) && Inv(s) && Cap(c, k, s) && (g, t) in s.taskRuns
    ensures Cap(c, k, OnTaskRunEnds(c, s, g, t))
  {
    EndTaskCore(s, g, t);
    DrainGroupCap(c, k, s, EndTask(s, g, t), g);
  }

  lemma RecordsCap(c: Limits, k: Reason, s: Queue, g: Jid, ipcDir: bool)
    requires Cap(c, k, s)
    ensures Cap(c, k, OnRegisterProcess(s, g, ipcDir)) && Cap(c, k, OnCloseStdin(s, g))
  {
    if s.handler && !s.shuttingDown {
      assert GroupCap(c, k, s, g);
      OneGroupCap(c, k, s, OnRegisterProcess(s, g, ipcDir), g);
      OneGroupCap(c, k, s, OnCloseStdin(s, g), g);
    }
  }

  lemma EnterRecoveryCap(c: Limits, k: Reason, s: Queue)
    requires Meant(c, k) && Cap(c, k, s)
    ensures Cap(c, k, s.(recoveryMode := true))
  {
    if s.handler && !s.shuttingDown {
      forall g ensures GroupCap(c, k, s.(recoveryMode := true), g) {
        assert GroupCap(c, k, s, g);
      }
    }
  }

  lemma StepCap(c: Limits, k: Reason, s: Queue, e: Event)
    requires Meant(c, k) && Inv(s) && Cap(c, k, s) && Enabled(s, e)
    ensures Cap(c, k, Step(c, s, e))
  {
    match e
    case SetHandler =>
      SameGroupsInv(s, s.(handler := true));
      DrainWaitingCap(c, k, s.(handler := true));
    case EnterRecovery => EnterRecoveryCap(c, k, s);
    case RecoveryEnds =>
      SameGroupsInv(s, s.(recoveryMode := false));
      DrainWaitingCap(c, k, s.(recoveryMode := false));
    case MessageCheck(g, ipcDir, now) =>
      if s.handler && !s.shuttingDown {
        TasksMeanRuns(c, k, s, g);
        assert GroupOk(s, g);
        MessageCheckCap(c, k, s, g, ipcDir, now);
      }
    case TaskRequest(g, t) =>
      if !s.shuttingDown {
        TaskRequestCap(c, k, s, g, t);
      }
    case RegisterProcess(g, ipcDir) => RecordsCap(c, k, s, g, ipcDir);
    case CloseStdin(g) => RecordsCap(c, k, s, g, false);
    case MessageRunEnds(g, run, outcome, now) => MessageRunEndsCap(c, k, s, g, run, outcome, now);
    case TaskRunEnds(g, t) => TaskRunEndsCap(c, k, s, g, t);
    case RetryFires(g, now) => RetryFiresCap(c, k, s, g, now);
    case Shutdown =>
  }

  lemma {:induction false} ReachableCap(c: Limits, k: Reason, es: seq<Event>)
    requires Meant(c, k)
    ensures Cap(c, k, Exec(c, EMPTY_QUEUE, es))
    decreases |es|
  {
    if es != [] {
      var p := Exec(c, EMPTY_QUEUE, es[..|es| - 1]);
      ReachableCap(c, k, es[..|es| - 1]);
      ReachableInv(c, es[..|es| - 1]);
      if Enabled(p, es[|es| - 1]) {
        StepCap(c, k, p, es[|es| - 1]);
      }
    }
  }

  /** The group is listed and idle with messages that no retry timer will look at, and a slot is free. */
  predicate IdlesInVain(c: Limits, s: Queue, g: Jid) {
    && s.handler && !s.shuttingDown && g in s.waiting && Idles(Get(s, g)) && s.activeCount < EffectiveMax(c, s)
  }

  predicate IdlesInVainAfter(c: Limits, es: seq<Event>, g: Jid) {
    IdlesInVain(c, Exec(c, EMPTY_QUEUE, es), g)
  }

  /** Where recovery does not raise the limit, messages wait only for a slot. */
  lemma NeverIdlesInVain(c: Limits, es: seq<Event>, g: Jid)
    requires c.recoveryAgents <= c.maxAgents
    ensures !IdlesInVainAfter(c, es, g)
  {
    ReachableCap(c, SlotsFull, es);
    var s := Exec(c, EMPTY_QUEUE, es);
    assert s.handler && !s.shuttingDown ==> GroupCap(c, SlotsFull, s, g);
  }

  /** Nothing in flight, and yet the group has work that nobody will start. */
  predicate Stuck(s: Queue, g: Jid) {
    var st := Get(s, g);
    && s.handler && !s.shuttingDown && s.activeCount == 0
    && (|st.pendingTasks| > 0 || (st.pendingMessages && !st.retryTimer))
  }

  predicate StuckAfter(c: Limits, es: seq<Event>, g: Jid) {
    Stuck(Exec(c, EMPTY_QUEUE, es), g)
  }

  lemma NeverStuck(c: Limits, es: seq<Event>, g: Jid)
    requires 1 <= c.recoveryAgents && 1 <= c.maxAgents
    ensures !StuckAfter(c, es, g)
  {
    var s := Exec(c, EMPTY_QUEUE, es);
    ReachableInv(c, es);
    ReachableCap(c, SomethingRuns, es);
    assert GroupOk(s, g);
    if s.handler && !s.shuttingDown {
      assert Wake(s, g) && GroupCap(c, SomethingRuns, s, g);
      assert s.activeCount == 0 ==> |s.msgRuns| == 0 && |s.taskRuns| == 0;
    }
  }

  /** The first message of a group while the recovery pool has no slot at all. */
  lemma StuckWithoutRecoverySlots(c: Limits)
    requires c.recoveryAgents < 1
    ensures StuckAfter(c, [SetHandler, EnterRecovery, MessageCheck("a", false, 0)], "a")
  {
    var es := [SetHandler, EnterRecovery, MessageCheck("a", false, 0)];
    assert es[..2] == [SetHandler, EnterRecovery] && es[..2][..1] == [SetHandler] && es[..1][..0] == [];
    var s1 := Exec(c, EMPTY_QUEUE, [SetHandler]);
    assert s1 == EMPTY_QUEUE.(handler := true);
    var s2 := Exec(c, EMPTY_QUEUE, [SetHandler, EnterRecovery]);
    assert s2 == s1.(recoveryMode := true);
    assert Exec(c, EMPTY_QUEUE, es) == OnMessageCheck(c, s2, "a", false, 0);
  }

  lemma StuckWithoutSlots(c: Limits)
    requires c.maxAgents < 1
    ensures StuckAfter(c, [SetHandler, MessageCheck("a", false, 0)], "a")
  {
    var es := [SetHandler, MessageCheck("a", false, 0)];
    assert es[..1] == [SetHandler] && es[..1][..0] == [];
    assert Exec(c, EMPTY_QUEUE, [SetHandler]) == EMPTY_QUEUE.(handler := true);
    assert Exec(c, EMPTY_QUEUE, es) == OnMessageCheck(c, EMPTY_QUEUE.(handler := true), "a", false, 0);
  }

  /** Deadlock freedom of all histories, tasks and recoveries included, is exactly that both pools have at
      least one slot. */
  lemma DeadlockFreedom(c: Limits)
    ensures (forall es, g :: !StuckAfter(c, es, g)) <==> 1 <= c.recoveryAgents && 1 <= c.maxAgents
  {
    hide StuckAfter;
    if c.recoveryAgents < 1 {
      StuckWithoutRecoverySlots(c);
    } else if c.maxAgents < 1 {
      StuckWithoutSlots(c);
    } else {
      forall es, g ensures !StuckAfter(c, es, g) {
        NeverStuck(c, es, g);
      }
    }
  }
}
