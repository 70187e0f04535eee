/** What the events alone tell of a group's process: whether one is registered and where its messages go, and
    when it is asked to close. */
module QueueRecords {
  import opened Basics
  import opened QueueState
  import opened QueueSteps

  /** What is known of the process of a group's run: that there is one, and that it has an IPC directory. */
  datatype Process = Process(registered: bool, ipcDir: bool)

  const NO_PROCESS := Process(false, false)

  /** A process is known from its registration, its directory from there or from a message check, both until a run
      of the group ends; after shutdown message checks are not heard. */
  function After(p: Process, e: Event, g: Jid, down: bool): Process {
    match e
    case RegisterProcess(h, ipcDir) => if h == g then Process(true, p.ipcDir || ipcDir) else p
    case MessageCheck(h, ipcDir, _) => if h == g && ipcDir && !down then p.(ipcDir := true) else p
    case MessageRunEnds(h, _, _, _) => if h == g then NO_PROCESS else p
    case TaskRunEnds(h, _) => if h == g then NO_PROCESS else p
    case _ => p
  }

  function ProcessIn(s: Queue, g: Jid): Process {
    Process(Get(s, g).hasProcess, Get(s, g).hasIpcDir)
  }

  /** Without a handler, messages that go away have been run and ended on the spot. */
  predicate RunsAway(s: Queue, r: Queue, g: Jid) {
    !s.handler && Get(s, g).pendingMessages && !Get(r, g).pendingMessages
  }

  // ---- draining

  /** From s to r, while groups are started: a process is forgotten only with a run that ended on the spot, nobody
      gets messages, and no group begins to close. */
  ghost predicate Drains(s: Queue, r: Queue) {
    && r.handler == s.handler
    && forall g ::
         && (Get(r, g).pendingMessages ==> Get(s, g).pendingMessages)
         && ProcessIn(r, g) == (if RunsAway(s, r, g) then NO_PROCESS else ProcessIn(s, g))
         && (Get(r, g).runPhase == ClosingMessages ==> Get(s, g).runPhase == ClosingMessages)
  }

  lemma DrainsThen(s: Queue, r: Queue, t: Queue)
    requires Drains(s, r) && Drains(r, t)
    ensures Drains(s, t)
  {
  }

  /** Taking a group off the list. */
  lemma UnlistDrains(s: Queue, k: nat)
    requires k < |s.waiting|
    ensures Drains(s, Unlist(s, k))
  {
  }

  lemma StartQueuedDrains(s: Queue, g: Jid)
    requires |Get(s, g).pendingTasks| > 0
    ensures Drains(s, StartQueued(s, g)) && StartQueued(s, g).waiting == s.waiting
  {
    hide AssertReports, TransitionReports;
  }

  lemma StartMessagesDrains(s: Queue, g: Jid)
    requires s.handler
    ensures Drains(s, StartMessages(s, g))
  {
    hide AssertReports, TransitionReports;
  }

  lemma RunsOnTheSpot(s: Queue, g: Jid)
    requires !s.handler && Get(s, g).pendingMessages
    ensures Drains(s, EndMessages(StartMessages(s, g), g, s.nextRun))
  {
    hide AssertReports, TransitionReports;
  }

  lemma {:induction false} DrainWaitingDrains(c: Limits, s: Queue)
    ensures Drains(s, DrainWaiting(c, s))
    decreases |s.waiting|, 0, 0
  {
    hide NextIndex, StartQueued, RunForGroup, Drains;
    var k := NextIndex(c, s);
    if |s.waiting| > 0 && s.activeCount < EffectiveMax(c, s) && k < |s.waiting| {
      var g, s1 := s.waiting[k], Unlist(s, k);
      UnlistDrains(s, k);
      if Get(s1, g).pendingMessages {
        RunForGroupDrains(c, s1, g);
        DrainWaitingDrains(c, RunForGroup(c, s1, g));
        DrainsThen(s, s1, RunForGroup(c, s1, g));
        DrainsThen(s, RunForGroup(c, s1, g), DrainWaiting(c, s));
      } else {
        StartQueuedDrains(s1, g);
        DrainWaitingDrains(c, StartQueued(s1, g));
        DrainsThen(s, s1, StartQueued(s1, g));
        DrainsThen(s, StartQueued(s1, g), DrainWaiting(c, s));
      }
    } else {
      DrainsNothing(s);
    }
  }

  lemma DrainsNothing(s: Queue)
    ensures Drains(s, s)
  {
  }

  lemma {:induction false} RunForGroupDrains(c: Limits, s: Queue, g: Jid)
    requires Get(s, g).pendingMessages
    ensures Drains(s, RunForGroup(c, s, g))
    decreases |s.waiting|, 1, 1
  {
    hide StartMessages, EndMessages, DrainGroup, Drains;
    if s.handler {
      StartMessagesDrains(s, g);
    } else {
      var s2 := EndMessages(StartMessages(s, g), g, s.nextRun);
      RunsOnTheSpot(s, g);
      SameList(s, g);
      DrainGroupDrains(c, s2, g);
      DrainsThen(s, s2, DrainGroup(c, s2, g));
    }
  }

  lemma SameList(s: Queue, g: Jid)
    ensures var r := EndMessages(StartMessages(s, g), g, s.nextRun);
            r.waiting == s.waiting && !Get(r, g).pendingMessages
  {
    hide AssertReports, TransitionReports;
  }

  lemma {:induction false} DrainGroupDrains(c: Limits, s: Queue, g: Jid)
    ensures Drains(s, DrainGroup(c, s, g))
    decreases |s.waiting|, 1, if Get(s, g).pendingMessages then 2 else 0
  {
    hide StartQueued, RunForGroup, DrainWaiting, Drains;
    DrainsNothing(s);
    if s.shuttingDown {
    } else if |Get(s, g).pendingTasks| > 0 {
      StartQueuedDrains(s, g);
    } else if Get(s, g).pendingMessages {
      RunForGroupDrains(c, s, g);
    } else {
      DrainWaitingDrains(c, s);
    }
  }

  // ---- events

  /** When a group is asked to close: its message run is on and its process has an IPC directory; at shutdown only a
      registered process is asked. */
  predicate AskedToClose(s: Queue, e: Event, g: Jid) {
    && Get(s, g).runPhase == RunningMessages && Get(s, g).hasIpcDir
    && ((e.CloseStdin? && e.g == g) || (e.Shutdown? && Get(s, g).hasProcess))
  }

  /** Messages that went away without a run while something was drained before the handler was there. */
  predicate RanAway(s: Queue, e: Event, r: Queue, g: Jid) {
    !e.SetHandler? && RunsAway(s, r, g)
  }

  /** What an event does to the process of every group, and to its closing. */
  ghost predicate Recorded(s: Queue, e: Event, r: Queue) {
    forall g ::
      && ProcessIn(r, g) == (if RanAway(s, e, r, g) then NO_PROCESS
                             else After(ProcessIn(s, g), e, g, s.shuttingDown))
      && (Get(r, g).runPhase == ClosingMessages ==>
            Get(s, g).runPhase == ClosingMessages || AskedToClose(s, e, g))
      && (AskedToClose(s, e, g) ==> Get(r, g).runPhase == ClosingMessages)
  }

  /** From s to r no process is registered or forgotten, no messages are lost and no group begins to close. */
  ghost predicate Calm(s: Queue, r: Queue) {
    && r.handler == s.handler
    && forall g ::
         && ProcessIn(r, g) == ProcessIn(s, g)
         && (!s.handler && Get(s, g).pendingMessages ==> Get(r, g).pendingMessages)
         && (Get(r, g).runPhase == ClosingMessages ==> Get(s, g).runPhase == ClosingMessages)
  }

  lemma CalmThen(s: Queue, r: Queue, t: Queue)
    requires Calm(s, r) && Calm(r, t)
    ensures Calm(s, t)
  {
  }

  lemma SameGroupsCalm(s: Queue, r: Queue)
    requires r.groups == s.groups && r.handler == s.handler
    ensures Calm(s, r)
  {
  }

  lemma PutCalm(s: Queue, g: Jid, st: Group)
    requires st.hasProcess == Get(s, g).hasProcess && st.hasIpcDir == Get(s, g).hasIpcDir
    requires st.runPhase == Get(s, g).runPhase && (Get(s, g).pendingMessages ==> st.pendingMessages)
    ensures Calm(s, Put(s, g, st))
  {
  }

  lemma StartsCalm(s: Queue, g: Jid, t: TaskId)
    ensures Calm(s, StartTask(s, g, t))
    ensures s.handler ==> Calm(s, StartMessages(s, g))
  {
    hide AssertReports, TransitionReports;
  }

  lemma CheckMessagesCalm(c: Limits, s: Queue, g: Jid, now: int)
    ensures Calm(s, CheckMessages(c, s, g, now))
  {
    hide StartMessages, EffectiveMax, Backoff, Put, Calm;
    var m := MarkPending(s, g);
    PutCalm(s, g, Get(s, g).(pendingMessages := true));
    SameGroupsCalm(m, List(m, g));
    StartsCalm(s, g, "");
    CalmThen(s, m, List(m, g));
  }

  lemma CheckRecorded(c: Limits, s: Queue, g: Jid, ipcDir: bool, now: int)
    ensures Recorded(s, MessageCheck(g, ipcDir, now), OnMessageCheck(c, s, g, ipcDir, now))
  {
    hide CheckMessages;
    CheckMessagesCalm(c, NoteIpc(s, g, ipcDir), g, now);
  }

  lemma QueueTaskCalm(c: Limits, s: Queue, g: Jid, t: TaskId)
    ensures Calm(s, QueueTask(c, s, g, t))
  {
    hide StartTask, EffectiveMax, Put, Calm;
    var st, p := Get(s, g), Push(s, g, t);
    PutCalm(s, g, st.(pendingTasks := st.pendingTasks + [t], pushed := st.pushed + [t]));
    SameGroupsCalm(p, List(p, g));
    StartsCalm(s, g, t);
    CalmThen(s, p, List(p, g));
  }

  lemma RequestRecorded(c: Limits, s: Queue, g: Jid, t: TaskId)
    ensures Recorded(s, TaskRequest(g, t), OnTaskRequest(c, s, g, t))
  {
    hide QueueTask, Duplicate;
    var s1 := Accept(Touch(s, g), g, t);
    assert forall h :: Get(s1, h) == Get(s, h) && Get(Touch(s, g), h) == Get(s, h);
    QueueTaskCalm(c, s1, g, t);
  }

  lemma RegisterRecorded(s: Queue, g: Jid, ipcDir: bool)
    ensures Recorded(s, RegisterProcess(g, ipcDir), OnRegisterProcess(s, g, ipcDir))
  {
    var r := OnRegisterProcess(s, g, ipcDir);
    assert forall h :: h != g ==> Get(r, h) == Get(s, h);
    assert Get(r, g) == Get(s, g).(hasProcess := true, hasIpcDir := Get(s, g).hasIpcDir || ipcDir);
    hide OnRegisterProcess;
  }

  lemma CloseRecorded(s: Queue, g: Jid)
    ensures Recorded(s, CloseStdin(g), OnCloseStdin(s, g))
  {
    hide CloseReports;
    var r := OnCloseStdin(s, g);
    assert forall h :: h != g ==> Get(r, h) == Get(s, h);
    assert Get(r, g) == CloseGroup(Get(s, g));
    hide OnCloseStdin;
  }

  lemma RetryRecorded(c: Limits, s: Queue, g: Jid, now: int)
    ensures Recorded(s, RetryFires(g, now), OnRetryFires(c, s, g, now))
  {
    hide OnMessageCheck;
    var s1 := Put(s, g, Get(s, g).(retryTimer := false, retryScheduledAt := None));
    CheckRecorded(c, s1, g, false, now);
  }

  lemma ShutdownRecorded(s: Queue)
    ensures Recorded(s, Shutdown, OnShutdown(s))
  {
    hide ShutdownReports;
  }

  /** The end of a run, before anything is drained. */
  ghost predicate EndsRun(s: Queue, d: Queue, g: Jid) {
    && d.handler == s.handler && ProcessIn(d, g) == NO_PROCESS && Get(d, g).runPhase == Idle
    && (forall h :: Get(d, h).pendingMessages == Get(s, h).pendingMessages)
    && (forall h :: h != g ==> Get(d, h) == Get(s, h))
  }

  lemma EndedEnds(s: Queue, g: Jid, run: RunId, outcome: Outcome, now: int)
    ensures EndsRun(s, Ended(s, g, run, outcome, now), g)
  {
    hide AssertReports, TransitionReports, Pow2;
  }

  lemma EndTaskEnds(s: Queue, g: Jid, t: TaskId)
    ensures EndsRun(s, EndTask(s, g, t), g)
  {
    hide AssertReports, TransitionReports;
  }

  lemma EndRecorded(c: Limits, s: Queue, d: Queue, g: Jid, e: Event)
    requires EndsRun(s, d, g) && (e.MessageRunEnds? || e.TaskRunEnds?) && e.g == g
    ensures Recorded(s, e, DrainGroup(c, d, g))
  {
    hide DrainGroup;
    DrainGroupDrains(c, d, g);
  }

  lemma ModesRecorded(c: Limits, s: Queue, d: Queue, e: Event)
    requires d.groups == s.groups && d.handler == (s.handler || e.SetHandler?)
    requires e.SetHandler? || e.RecoveryEnds?
    ensures Recorded(s, e, DrainWaiting(c, d))
  {
    hide DrainWaiting;
    DrainWaitingDrains(c, d);
  }

  lemma RecoveryRecorded(s: Queue)
    ensures Recorded(s, EnterRecovery, s.(recoveryMode := true))
  {
  }

  /** Every block does to the process of every group what its event says, and a group begins to close exactly when
      it is asked to. */
  lemma StepRecorded(c: Limits, s: Queue, e: Event)
    requires Enabled(s, e)
    ensures Recorded(s, e, Step(c, s, e))
  {
    if e.EnterRecovery? {
      RecoveryRecorded(s);
    } else {
      hide Recorded, EndsRun, DrainWaiting, DrainGroup, Ended, EndTask, OnMessageCheck, OnTaskRequest, OnRetryFires,
           OnRegisterProcess, OnCloseStdin, OnShutdown;
      match e
      case SetHandler => ModesRecorded(c, s, s.(handler := true), e);
      case RecoveryEnds => ModesRecorded(c, s, s.(recoveryMode := false), e);
      case MessageCheck(g, ipcDir, now) => CheckRecorded(c, s, g, ipcDir, now);
      case TaskRequest(g, t) => RequestRecorded(c, s, g, t);
      case RegisterProcess(g, ipcDir) => RegisterRecorded(s, g, ipcDir);
      case CloseStdin(g) => CloseRecorded(s, g);
      case MessageRunEnds(g, run, outcome, now) =>
        EndedEnds(s, g, run, outcome, now);
        EndRecorded(c, s, Ended(s, g, run, outcome, now), g, e);
      case TaskRunEnds(g, t) =>
        EndTaskEnds(s, g, t);
        EndRecorded(c, s, EndTask(s, g, t), g, e);
      case RetryFires(g, now) => RetryRecorded(c, s, g, now);
      case Shutdown => ShutdownRecorded(s);
    }
  }

  /** The process of a group as its history tells it. */
  function ProcessOf(c: Limits, es: seq<Event>, g: Jid): Process
    decreases |es|
  {
    if es == [] then NO_PROCESS
    else
      var before, e := es[..|es| - 1], es[|es| - 1];
      var s := Exec(c, EMPTY_QUEUE, before);
      if !Enabled(s, e) then ProcessOf(c, before, g)
      else if RanAway(s, e, Step(c, s, e), g) then NO_PROCESS
      else After(ProcessOf(c, before, g), e, g, s.shuttingDown)
  }

  /** Over all histories the record of a group says what its history tells of its process. */
  lemma {:induction false} ProcessFromHistory(c: Limits, es: seq<Event>, g: Jid)
    ensures ProcessIn(Exec(c, EMPTY_QUEUE, es), g) == ProcessOf(c, es, g)
    decreases |es|
  {
    hide After, Step, Enabled, RanAway;
    if es != [] {
      var s, e := Exec(c, EMPTY_QUEUE, es[..|es| - 1]), es[|es| - 1];
      ProcessFromHistory(c, es[..|es| - 1], g);
      if Enabled(s, e) {
        StepRecorded(c, s, e);
      }
    }
  }

  // ---- the phase checks

  /** The checks accept a record exactly when its ids fit its phase: a message run is named in its two phases and only
      there, a task in its phase and only there, and an idle group has no process. */
  lemma ChecksAcceptExactly(st: Group)
    ensures !AssertReports(st) <==>
              && (st.currentRunId.Some? <==> st.runPhase == RunningMessages || st.runPhase == ClosingMessages)
              && (st.runningTaskId.Some? <==> st.runPhase == RunningTask)
              && (st.runPhase == Idle ==> !st.hasProcess)
  {
  }

  /** A change of phase is accepted exactly when it changes nothing, goes back to idle, starts a run from there, or
      closes a message run. */
  lemma ChangesAcceptedExactly(from: RunPhase, to: RunPhase)
    ensures !TransitionReports(from, to) <==>
              || from == to || to == Idle || (from == Idle && to != ClosingMessages)
              || (from == RunningMessages && to == ClosingMessages)
  {
  }
}
