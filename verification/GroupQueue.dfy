/** The scheduler as the program has it: records and counters updated in place. Each method leaves
    the abstract value that the corresponding function on values says it should. */
module GroupQueueClass {
  import opened Basics
  import opened QueueState
  import opened QueueSteps

  /** The record of one group. The ghost fields are whose it is and the history of its task queue. */
  class GroupRecord {
    ghost const jid: Jid
    var runPhase: RunPhase
    var runningTaskId: Option<TaskId>
    var currentRunId: Option<RunId>
    var pendingMessages: bool
    var pendingTasks: seq<TaskId>
    var retryCount: nat
    var retryTimer: bool
    var retryScheduledAt: Option<int>
    var hasProcess: bool
    var hasIpcDir: bool
    ghost var pushed: seq<TaskId>
    ghost var shifted: seq<TaskId>

    ghost function View(): Group
      reads this
    {
      Group(runPhase, runningTaskId, currentRunId, pendingMessages, pendingTasks, retryCount,
            retryTimer, retryScheduledAt, hasProcess, hasIpcDir, pushed, shifted)
    }

    constructor (ghost jid: Jid)
      ensures View() == FRESH_GROUP && this.jid == jid
    {
      this.jid := jid;
      runPhase, runningTaskId, currentRunId := Idle, None, None;
      pendingMessages, pendingTasks := false, [];
      retryCount, retryTimer, retryScheduledAt := 0, false, None;
      hasProcess, hasIpcDir := false, false;
      pushed, shifted := [], [];
    }

    /** Moves to the next phase; `error` says that the change was logged as invalid. */
    method TransitionRunPhase(next: RunPhase) returns (error: bool)
      modifies this`runPhase
      ensures View() == old(View()).(runPhase := next)
      ensures error == TransitionReports(old(runPhase), next)
    {
      if runPhase == next { return false; }
      error := !ValidTransition(runPhase, next);
      runPhase := next;
    }

    method ResetRunState() returns (error: bool)
      modifies this
      ensures View() == ResetRun(old(View()))
      ensures error == TransitionReports(old(runPhase), Idle)
    {
      currentRunId, runningTaskId := None, None;
      hasProcess, hasIpcDir := false, false;
      error := TransitionRunPhase(Idle);
    }

    /** `error` says that an inconsistency was logged. */
    method AssertRunPhaseInvariants() returns (error: bool)
      ensures error == AssertReports(View())
    {
      match runPhase
      case Idle => error := currentRunId != None || runningTaskId != None || hasProcess;
      case RunningMessages => error := currentRunId == None || runningTaskId != None;
      case ClosingMessages => error := currentRunId == None || runningTaskId != None;
      case RunningTask => error := runningTaskId == None || currentRunId != None;
    }

    /** The record of a group whose message run begins; `error` if a phase check logged one. */
    method BeginMessages(runId: RunId) returns (error: bool)
      modifies this
      ensures View() == old(View()).(currentRunId := Some(runId), pendingMessages := false, runPhase := RunningMessages)
      ensures error == (TransitionReports(old(runPhase), RunningMessages) || AssertReports(View()))
    {
      currentRunId := Some(runId);
      pendingMessages := false;
      var e1 := TransitionRunPhase(RunningMessages);
      var e2 := AssertRunPhaseInvariants();
      error := e1 || e2;
    }

    method BeginTask(t: TaskId) returns (error: bool)
      modifies this
      ensures View() == old(View()).(runningTaskId := Some(t), runPhase := RunningTask)
      ensures error == (TransitionReports(old(runPhase), RunningTask) || AssertReports(View()))
    {
      runningTaskId := Some(t);
      var e1 := TransitionRunPhase(RunningTask);
      var e2 := AssertRunPhaseInvariants();
      error := e1 || e2;
    }

    method EndRun() returns (error: bool)
      modifies this
      ensures View() == ResetRun(old(View()))
      ensures error == (TransitionReports(old(runPhase), Idle) || AssertReports(View()))
    {
      var e1 := ResetRunState();
      var e2 := AssertRunPhaseInvariants();
      error := e1 || e2;
    }

    /** Books the next retry, or gives up after the last one. */
    method BookRetry(now: int)
      modifies this
      ensures View() == ScheduleRetry(old(View()), now)
    {
      retryCount := retryCount + 1;
      if retryCount > MAX_RETRIES {
        retryTimer, retryScheduledAt, retryCount := false, None, 0;
        return;
      }
      retryScheduledAt := Some(now + BASE_RETRY_MS * Pow2(retryCount - 1));
      retryTimer := true;
    }

    method MarkMessages()
      modifies this
      ensures View() == old(View()).(pendingMessages := true)
    {
      pendingMessages := true;
    }

    method NoteIpcDir(ipcDir: bool)
      modifies this
      ensures View() == old(View()).(hasIpcDir := old(hasIpcDir) || ipcDir)
    {
      if ipcDir && !hasIpcDir {
        hasIpcDir := true;
      }
    }

    method NoteProcess(ipcDir: bool)
      modifies this
      ensures View() == old(View()).(hasProcess := true, hasIpcDir := old(hasIpcDir) || ipcDir)
    {
      hasProcess := true;
      if ipcDir {
        hasIpcDir := true;
      }
    }

    method PushTask(t: TaskId)
      modifies this
      ensures View() == old(View()).(pendingTasks := old(pendingTasks) + [t], pushed := old(pushed) + [t])
    {
      pendingTasks := pendingTasks + [t];
      pushed := pushed + [t];
    }

    method ClearRetry()
      modifies this
      ensures View() == old(View()).(retryTimer := false, retryScheduledAt := None)
    {
      retryTimer, retryScheduledAt := false, None;
    }

    method NoteOutcome(outcome: Outcome, now: int)
      modifies this
      ensures View() == AfterOutcome(old(View()), outcome, now)
    {
      if outcome == Success {
        retryCount, retryScheduledAt := 0, None;
      } else {
        BookRetry(now);
      }
    }

    method ShiftTask() returns (t: TaskId)
      requires |pendingTasks| > 0
      modifies this
      ensures t == old(pendingTasks)[0]
      ensures View() == old(View()).(pendingTasks := old(pendingTasks)[1..], shifted := old(shifted) + [t])
    {
      t := pendingTasks[0];
      pendingTasks := pendingTasks[1..];
      shifted := shifted + [t];
    }

    /** What closing stdin does to the record. */
    method Close() returns (error: bool)
      modifies this
      ensures View() == CloseGroup(old(View())) && error == CloseReports(old(View()))
    {
      error := false;
      if runPhase == Idle || !hasIpcDir { return; }
      if runPhase == RunningMessages {
        var e1 := TransitionRunPhase(ClosingMessages);
        var e2 := AssertRunPhaseInvariants();
        error := e1 || e2;
      }
    }

    method ShutDown() returns (error: bool)
      modifies this
      ensures View() == ShutdownGroup(old(View())) && error == ShutdownReports(old(View()))
    {
      ClearRetry();
      error := false;
      if hasProcess && runPhase == RunningMessages && hasIpcDir {
        error := Close();
      }
    }
  }

  class GroupQueue {
    const limits: Limits
    var groups: map<Jid, GroupRecord>
    var activeCount: int
    var activeTaskCount: int
    var waitingGroups: seq<Jid>
    var recoveryMode: bool
    var handler: bool
    var shuttingDown: bool
    var nextRun: nat
    ghost var msgRuns: multiset<(Jid, RunId)>
    ghost var taskRuns: multiset<(Jid, TaskId)>
    ghost var accepted: multiset<(Jid, TaskId)>
    ghost var finished: multiset<(Jid, TaskId)>
    var reported: bool

    ghost function Records(): set<GroupRecord>
      reads this`groups
    {
      groups.Values
    }

    ghost function GroupsView(): map<Jid, Group>
      reads this`groups, Records()
    {
      map g | g in groups :: groups[g].View()
    }

    ghost function View(): Queue
      reads this, Records()
    {
      Queue(GroupsView(), activeCount, activeTaskCount, waitingGroups, recoveryMode, handler, shuttingDown,
            nextRun, msgRuns, taskRuns, accepted, finished, reported)
    }

    /** Every group has its own record, and listed groups have one. */
    ghost predicate Valid()
      reads this`groups, this`waitingGroups
    {
      && (forall g :: g in groups ==> groups[g].jid == g)
      && (forall g :: g in waitingGroups ==> g in groups)
    }

    constructor (limits: Limits)
      ensures Valid() && View() == EMPTY_QUEUE && this.limits == limits && Records() == {}
    {
      this.limits := limits;
      groups, waitingGroups := map[], [];
      activeCount, activeTaskCount, nextRun := 0, 0, 0;
      recoveryMode, handler, shuttingDown, reported := false, false, false, false;
      msgRuns, taskRuns, accepted, finished := multiset{}, multiset{}, multiset{}, multiset{};
    }

    method GetGroup(g: Jid) returns (st: GroupRecord)
      requires Valid()
      modifies this`groups
      ensures Valid() && g in groups && groups[g] == st && st in Records()
      ensures View() == Touch(old(View()), g)
      ensures Records() <= old(Records()) + {st} && (st in old(Records()) || fresh(st))
      ensures g in old(groups) ==> groups == old(groups)
    {
      if g in groups {
        st := groups[g];
        assert GroupsView() == old(GroupsView())[g := Get(old(View()), g)];
      } else {
        st := new GroupRecord(g);
        groups := groups[g := st];
        assert GroupsView() == old(GroupsView())[g := FRESH_GROUP];
      }
    }

    function CurrentMax(): int
      reads this`recoveryMode
    {
      if recoveryMode then limits.recoveryAgents else limits.maxAgents
    }

    // ---- one record changes, the others do not

    method BeginMessagesOf(g: Jid, runId: RunId) returns (error: bool)
      requires Valid() && g in groups
      modifies groups[g]
      ensures Valid()
      ensures GroupsView() == old(GroupsView())[g := old(groups[g].View()).(
                currentRunId := Some(runId), pendingMessages := false, runPhase := RunningMessages)]
      ensures error == (TransitionReports(old(groups[g].View()).runPhase, RunningMessages)
                           || AssertReports(groups[g].View()))
    {
      error := groups[g].BeginMessages(runId);
    }

    method BeginTaskOf(g: Jid, t: TaskId) returns (error: bool)
      requires Valid() && g in groups
      modifies groups[g]
      ensures Valid()
      ensures GroupsView() == old(GroupsView())[g := old(groups[g].View()).(
                runningTaskId := Some(t), runPhase := RunningTask)]
      ensures error == (TransitionReports(old(groups[g].View()).runPhase, RunningTask)
                           || AssertReports(groups[g].View()))
    {
      error := groups[g].BeginTask(t);
    }

    method EndRunOf(g: Jid) returns (error: bool)
      requires Valid() && g in groups
      modifies groups[g]
      ensures Valid() && GroupsView() == old(GroupsView())[g := ResetRun(old(groups[g].View()))]
      ensures error == (TransitionReports(old(groups[g].View()).runPhase, Idle) || AssertReports(groups[g].View()))
    {
      error := groups[g].EndRun();
    }

    method NoteOutcomeOf(g: Jid, outcome: Outcome, now: int)
      requires Valid() && g in groups
      modifies groups[g]
      ensures Valid() && GroupsView() == old(GroupsView())[g := AfterOutcome(old(groups[g].View()), outcome, now)]
    {
      groups[g].NoteOutcome(outcome, now);
    }

    method ShiftTaskOf(g: Jid) returns (t: TaskId)
      requires Valid() && g in groups && |groups[g].pendingTasks| > 0
      modifies groups[g]
      ensures Valid()
      ensures GroupsView() == old(GroupsView())[g := old(groups[g].View()).(
                pendingTasks := old(groups[g].View()).pendingTasks[1..],
                shifted := old(groups[g].View()).shifted + [t])]
      ensures t == old(groups[g].View()).pendingTasks[0]
    {
      t := groups[g].ShiftTask();
    }

    method MarkMessagesOf(g: Jid)
      requires Valid() && g in groups
      modifies groups[g]
      ensures Valid() && GroupsView() == old(GroupsView())[g := old(groups[g].View()).(pendingMessages := true)]
    {
      groups[g].MarkMessages();
    }

    method NoteIpcDirOf(g: Jid, ipcDir: bool)
      requires Valid() && g in groups
      modifies groups[g]
      ensures Valid()
      ensures GroupsView() == old(GroupsView())[g := old(groups[g].View()).(
                hasIpcDir := old(groups[g].View()).hasIpcDir || ipcDir)]
    {
      groups[g].NoteIpcDir(ipcDir);
    }

    method NoteProcessOf(g: Jid, ipcDir: bool)
      requires Valid() && g in groups
      modifies groups[g]
      ensures Valid()
      ensures GroupsView() == old(GroupsView())[g := old(groups[g].View()).(
                hasProcess := true, hasIpcDir := old(groups[g].View()).hasIpcDir || ipcDir)]
    {
      groups[g].NoteProcess(ipcDir);
    }

    method PushTaskOf(g: Jid, t: TaskId)
      requires Valid() && g in groups
      modifies groups[g]
      ensures Valid()
      ensures GroupsView() == old(GroupsView())[g := old(groups[g].View()).(
                pendingTasks := old(groups[g].View()).pendingTasks + [t], pushed := old(groups[g].View()).pushed + [t])]
    {
      groups[g].PushTask(t);
    }

    method ClearRetryOf(g: Jid)
      requires Valid() && g in groups
      modifies groups[g]
      ensures Valid()
      ensures GroupsView() == old(GroupsView())[g := old(groups[g].View()).(
                retryTimer := false, retryScheduledAt := None)]
    {
      groups[g].ClearRetry();
    }

    method CloseOf(g: Jid) returns (error: bool)
      requires Valid() && g in groups
      modifies groups[g]
      ensures Valid() && GroupsView() == old(GroupsView())[g := CloseGroup(old(groups[g].View()))]
      ensures error == CloseReports(old(groups[g].View()))
    {
      error := groups[g].Close();
    }

    // ---- the counters change, the records do not

    method CountMessageStart(g: Jid, error: bool) returns (runId: RunId)
      requires Valid()
      modifies this`nextRun, this`activeCount, this`msgRuns, this`reported
      ensures Valid() && runId == old(nextRun)
      ensures View() == old(View()).(nextRun := runId + 1, activeCount := old(activeCount) + 1,
                                     msgRuns := old(msgRuns) + multiset{(g, runId)}, reported := old(reported) || error)
    {
      NoteError(error);
      CountMessages(1);
      runId := NewRunId();
      NoteMessagesStarted(g, runId);
    }

    method CountMessageEnd(g: Jid, runId: RunId, error: bool)
      requires Valid()
      modifies this`activeCount, this`msgRuns, this`reported
      ensures Valid()
      ensures View() == old(View()).(activeCount := old(activeCount) - 1,
                                     msgRuns := old(msgRuns) - multiset{(g, runId)}, reported := old(reported) || error)
    {
      NoteError(error);
      CountMessages(-1);
      NoteMessagesFinished(g, runId);
    }

    method NewRunId() returns (runId: RunId)
      requires Valid()
      modifies this`nextRun
      ensures Valid() && runId == old(nextRun) && View() == old(View()).(nextRun := runId + 1)
    {
      runId := nextRun;
      nextRun := nextRun + 1;
      assert GroupsView() == old(GroupsView());
    }

    method CountMessages(delta: int)
      requires Valid()
      modifies this`activeCount
      ensures Valid() && View() == old(View()).(activeCount := old(activeCount) + delta)
    {
      activeCount := activeCount + delta;
      assert GroupsView() == old(GroupsView());
    }

    ghost method NoteMessagesStarted(g: Jid, runId: RunId)
      requires Valid()
      modifies this`msgRuns
      ensures Valid() && View() == old(View()).(msgRuns := old(msgRuns) + multiset{(g, runId)})
    {
      msgRuns := msgRuns + multiset{(g, runId)};
      assert GroupsView() == old(GroupsView());
    }

    ghost method NoteMessagesFinished(g: Jid, runId: RunId)
      requires Valid()
      modifies this`msgRuns
      ensures Valid() && View() == old(View()).(msgRuns := old(msgRuns) - multiset{(g, runId)})
    {
      msgRuns := msgRuns - multiset{(g, runId)};
      assert GroupsView() == old(GroupsView());
    }

    method CountTask(delta: int)
      requires Valid()
      modifies this`activeCount, this`activeTaskCount
      ensures Valid()
      ensures View() == old(View()).(
                activeCount := old(activeCount) + delta, activeTaskCount := old(activeTaskCount) + delta)
    {
      activeCount := activeCount + delta;
      activeTaskCount := activeTaskCount + delta;
      assert GroupsView() == old(GroupsView());
    }

    ghost method NoteTaskFinished(g: Jid, t: TaskId)
      requires Valid()
      modifies this`taskRuns, this`finished
      ensures Valid()
      ensures View() == old(View()).(
                taskRuns := old(taskRuns) - multiset{(g, t)}, finished := old(finished) + multiset{(g, t)})
    {
      taskRuns := taskRuns - multiset{(g, t)};
      finished := finished + multiset{(g, t)};
      assert GroupsView() == old(GroupsView());
    }

    method CountTaskStart(g: Jid, t: TaskId, error: bool)
      requires Valid()
      modifies this`activeCount, this`activeTaskCount, this`taskRuns, this`reported
      ensures Valid()
      ensures View() == old(View()).(
                activeCount := old(activeCount) + 1,
                activeTaskCount := old(activeTaskCount) + 1,
                taskRuns := old(taskRuns) + multiset{(g, t)},
                reported := old(reported) || error)
    {
      activeCount := activeCount + 1;
      activeTaskCount := activeTaskCount + 1;
      taskRuns := taskRuns + multiset{(g, t)};
      reported := reported || error;
      assert GroupsView() == old(GroupsView());
    }

    method NoteError(error: bool)
      requires Valid()
      modifies this`reported
      ensures Valid() && View() == old(View()).(reported := old(reported) || error)
    {
      reported := reported || error;
      assert GroupsView() == old(GroupsView());
    }

    method CountTaskEnd(g: Jid, t: TaskId, error: bool)
      requires Valid()
      modifies this`activeCount, this`activeTaskCount, this`taskRuns, this`finished, this`reported
      ensures Valid()
      ensures View() == old(View()).(activeCount := old(activeCount) - 1, activeTaskCount := old(activeTaskCount) - 1,
                                     taskRuns := old(taskRuns) - multiset{(g, t)},
                                     finished := old(finished) + multiset{(g, t)}, reported := old(reported) || error)
    {
      NoteError(error);
      CountTask(-1);
      NoteTaskFinished(g, t);
    }

    ghost method NoteAccepted(g: Jid, t: TaskId)
      requires Valid()
      modifies this`accepted
      ensures Valid() && View() == Accept(old(View()), g, t)
    {
      accepted := accepted + multiset{(g, t)};
      assert GroupsView() == old(GroupsView());
    }

    method AddToWaiting(g: Jid)
      requires Valid() && g in groups
      modifies this`waitingGroups
      ensures Valid() && View() == List(old(View()), g)
    {
      if g !in waitingGroups {
        waitingGroups := waitingGroups + [g];
      }
    }

    method RemoveFromWaiting(k: nat) returns (g: Jid)
      requires Valid() && k < |waitingGroups|
      modifies this`waitingGroups
      ensures Valid() && g == old(waitingGroups)[k] && g in groups && View() == Unlist(old(View()), k)
    {
      g := waitingGroups[k];
      waitingGroups := waitingGroups[..k] + waitingGroups[k + 1..];
    }

    // ---- runs

    lemma EndedAtOnce(s: Queue, g: Jid)
      ensures var r := EndMessages(StartMessages(s, g), g, s.nextRun);
              !Get(r, g).pendingMessages && r.waiting == s.waiting
    {
    }

    /** Starts a message run; without a handler there is nothing to wait for and it ends at once. */
    method RunForGroup(g: Jid)
      requires Valid() && g in groups
      modifies this, Records()
      ensures Valid() && fresh(Records() - old(Records()))
      ensures View() == QueueSteps.RunForGroup(limits, old(View()), g)
      decreases |waitingGroups|, 1, 1
    {
      hide QueueSteps.DrainGroup, AssertReports, TransitionReports, StartMessages, EndMessages;
      EndedAtOnce(View(), g);
      var runId := BeginMessageRun(g);
      if !handler {
        EndMessageRun(g, runId);
        DrainGroup(g);
      }
    }

    method BeginMessageRun(g: Jid) returns (runId: RunId)
      requires Valid() && g in groups
      modifies this`nextRun, this`activeCount, this`msgRuns, this`reported, groups[g]
      ensures Valid() && runId == old(nextRun) && View() == StartMessages(old(View()), g)
    {
      var error := BeginMessagesOf(g, nextRun);
      runId := CountMessageStart(g, error);
    }

    /** What every message run does at its end, before draining. */
    method EndMessageRun(g: Jid, runId: RunId)
      requires Valid() && g in groups
      modifies this`activeCount, this`msgRuns, this`reported, groups[g]
      ensures Valid() && View() == EndMessages(old(View()), g, runId)
    {
      var error := EndRunOf(g);
      CountMessageEnd(g, runId, error);
    }

    method RunTask(g: Jid, t: TaskId)
      requires Valid() && g in groups
      modifies this`activeCount, this`activeTaskCount, this`taskRuns, this`reported, groups[g]
      ensures Valid() && View() == StartTask(old(View()), g, t)
    {
      hide AssertReports, TransitionReports;
      ghost var st := groups[g].View().(runningTaskId := Some(t), runPhase := RunningTask);
      var error := BeginTaskOf(g, t);
      assert GroupsView()[g] == groups[g].View();
      assert View() == Put(old(View()), g, st);
      CountTaskStart(g, t, error);
      assert activeCount == old(activeCount) + 1 && activeTaskCount == old(activeTaskCount) + 1;
    }

    /** The continuation of a message run when its handler is done. */
    method MessageRunEnds(g: Jid, runId: RunId, outcome: Outcome, now: int)
      requires Valid() && g in groups
      modifies this, Records()
      ensures Valid() && fresh(Records() - old(Records()))
      ensures View() == OnMessageRunEnds(limits, old(View()), g, runId, outcome, now)
    {
      hide QueueSteps.DrainGroup, AssertReports, TransitionReports;
      NoteOutcomeOf(g, outcome, now);
      EndMessageRun(g, runId);
      assert View() == Ended(old(View()), g, runId, outcome, now);
      DrainGroup(g);
    }

    /** What every task run does at its end, before draining. */
    method EndTaskRun(g: Jid, t: TaskId)
      requires Valid() && g in groups
      modifies this`activeCount, this`activeTaskCount, this`taskRuns, this`finished, this`reported, groups[g]
      ensures Valid() && View() == EndTask(old(View()), g, t)
    {
      var error := EndRunOf(g);
      CountTaskEnd(g, t, error);
    }

    /** The continuation of a task run. */
    method TaskRunEnds(g: Jid, t: TaskId)
      requires Valid() && g in groups
      modifies this, Records()
      ensures Valid() && fresh(Records() - old(Records()))
      ensures View() == OnTaskRunEnds(limits, old(View()), g, t)
    {
      hide QueueSteps.DrainGroup, AssertReports, TransitionReports;
      EndTaskRun(g, t);
      DrainGroup(g);
    }

    // ---- draining

    /** Takes the oldest pending task of the group and starts it. */
    method ShiftAndRun(g: Jid)
      requires Valid() && g in groups && |groups[g].pendingTasks| > 0
      modifies this, Records()
      ensures Valid() && fresh(Records() - old(Records()))
      ensures View() == StartQueued(old(View()), g)
    {
      var t := ShiftTaskOf(g);
      RunTask(g, t);
    }

    method DrainGroup(g: Jid)
      requires Valid() && g in groups
      modifies this, Records()
      ensures Valid() && fresh(Records() - old(Records()))
      ensures View() == QueueSteps.DrainGroup(limits, old(View()), g)
      decreases |waitingGroups|, 1, if Get(View(), g).pendingMessages then 2 else 0
    {
      if shuttingDown { return; }
      var st := groups[g];
      assert Get(View(), g) == st.View();
      if |st.pendingTasks| > 0 {
        ShiftAndRun(g);
      } else if st.pendingMessages {
        RunForGroup(g);
      } else {
        DrainWaiting();
      }
    }

    method FindMessage() returns (k: int)
      requires Valid()
      ensures -1 <= k < |waitingGroups|
      ensures k == if FirstMessage(View(), 0) < |waitingGroups| then FirstMessage(View(), 0) else -1
    {
      k := 0;
      while k < |waitingGroups|
        invariant 0 <= k <= |waitingGroups|
        invariant FirstMessage(View(), k) == FirstMessage(View(), 0)
      {
        assert waitingGroups[k] in groups;
        if groups[waitingGroups[k]].pendingMessages { return; }
        k := k + 1;
      }
      k := -1;
    }

    method FindTask() returns (k: int)
      requires Valid()
      ensures -1 <= k < |waitingGroups|
      ensures k == if FirstTask(limits, View(), 0) < |waitingGroups| then FirstTask(limits, View(), 0) else -1
    {
      k := 0;
      while k < |waitingGroups|
        invariant 0 <= k <= |waitingGroups|
        invariant FirstTask(limits, View(), k) == FirstTask(limits, View(), 0)
      {
        assert waitingGroups[k] in groups;
        if |groups[waitingGroups[k]].pendingTasks| > 0 && activeTaskCount < limits.MaxTasks() { return; }
        k := k + 1;
      }
      k := -1;
    }

    /** The position of the next listed group that can start, or -1. */
    method FindNext() returns (k: int)
      requires Valid()
      ensures -1 <= k < |waitingGroups|
      ensures k == if NextIndex(limits, View()) < |waitingGroups| then NextIndex(limits, View()) else -1
    {
      k := FindMessage();
      if k == -1 {
        k := FindTask();
      }
    }

    /** Starts the group at that position, after taking it off the list. */
    method StartListed(k: nat)
      requires Valid() && k == NextIndex(limits, View()) < |waitingGroups|
      modifies this, Records()
      ensures Valid() && fresh(Records() - old(Records()))
      ensures View() == AfterStart(old(View()), k)
      decreases |waitingGroups|, 0, 0
    {
      hide QueueSteps.RunForGroup, NextIndex;
      var g := RemoveFromWaiting(k);
      var st := groups[g];
      assert Get(View(), g) == st.View();
      if st.pendingMessages {
        RunForGroup(g);
      } else if |st.pendingTasks| > 0 && activeTaskCount < limits.MaxTasks() {
        ShiftAndRun(g);
      }
    }

    /** One iteration of the loop below, on values. */
    lemma DrainUnfolds(s: Queue, k: nat)
      requires |s.waiting| > 0 && s.activeCount < EffectiveMax(limits, s) && k == NextIndex(limits, s)
      ensures QueueSteps.DrainWaiting(limits, s)
           == if k == |s.waiting| then s
              else QueueSteps.DrainWaiting(limits, AfterStart(s, k))
    {
    }

    ghost function AfterStart(s: Queue, k: nat): (r: Queue)
      requires k == NextIndex(limits, s) < |s.waiting|
      ensures |r.waiting| < |s.waiting|
    {
      var g := s.waiting[k];
      if Get(s, g).pendingMessages then QueueSteps.RunForGroup(limits, Unlist(s, k), g)
      else StartQueued(Unlist(s, k), g)
    }

    method DrainWaiting()
      requires Valid()
      modifies this, Records()
      ensures Valid() && fresh(Records() - old(Records()))
      ensures View() == QueueSteps.DrainWaiting(limits, old(View()))
      decreases |waitingGroups|, 0, 1
    {
      hide QueueSteps.DrainWaiting, AfterStart, NextIndex;
      ghost var s := View();
      while |waitingGroups| > 0 && activeCount < CurrentMax()
        invariant Valid() && fresh(Records() - old(Records()))
        invariant |waitingGroups| <= old(|waitingGroups|)
        invariant s == View() && QueueSteps.DrainWaiting(limits, s) == QueueSteps.DrainWaiting(limits, old(View()))
        decreases |waitingGroups|
      {
        var k := FindNext();
        DrainUnfolds(s, if k == -1 then |waitingGroups| else k);
        if k == -1 { return; }
        StartListed(k);
        s := View();
      }
      DrainStops(s);
    }

    lemma DrainStops(s: Queue)
      requires |s.waiting| == 0 || s.activeCount >= EffectiveMax(limits, s)
      ensures QueueSteps.DrainWaiting(limits, s) == s
    {
    }

    // ---- requests

    method LookUpAndNoteIpc(g: Jid, ipcDir: bool)
      requires Valid()
      modifies this`groups, Records()
      ensures Valid() && fresh(Records() - old(Records())) && g in groups
      ensures View() == NoteIpc(old(View()), g, ipcDir)
    {
      var st := GetGroup(g);
      ghost var s := View();
      NoteIpcDirOf(g, ipcDir);
      assert View() == NoteIpc(s, g, ipcDir);
      TouchFirst(old(View()), g, Get(View(), g));
    }

    /** Looking a group up before replacing its record changes nothing. */
    lemma TouchFirst(s: Queue, g: Jid, st: Group)
      ensures Get(Touch(s, g), g) == Get(s, g) && Put(Touch(s, g), g, st) == Put(s, g, st)
    {
      assert Touch(s, g).groups[g := st] == s.groups[g := st];
    }

    /** Marks the messages of the group as pending and, if asked, lists it. */
    method KeepPending(g: Jid, list: bool)
      requires Valid() && g in groups
      modifies this`waitingGroups, groups[g]
      ensures Valid()
      ensures View() == if list then List(MarkPending(old(View()), g), g) else MarkPending(old(View()), g)
    {
      MarkMessagesOf(g);
      if list {
        AddToWaiting(g);
      }
    }

    method EnqueueMessageCheck(g: Jid, ipcDir: bool, now: int)
      requires Valid()
      modifies this, Records()
      ensures Valid() && fresh(Records() - old(Records()))
      ensures View() == OnMessageCheck(limits, old(View()), g, ipcDir, now)
    {
      if shuttingDown { return; }
      LookUpAndNoteIpc(g, ipcDir);
      CheckKnownGroup(g, now);
    }

    method CheckKnownGroup(g: Jid, now: int)
      requires Valid() && g in groups
      modifies this, Records()
      ensures Valid() && fresh(Records() - old(Records()))
      ensures View() == CheckMessages(limits, old(View()), g, now)
    {
      var st := groups[g];
      assert Get(View(), g) == st.View();
      if st.runPhase != Idle {
        KeepPending(g, false);
        return;
      }
      if !handler {
        KeepPending(g, true);
        return;
      }
      if st.retryScheduledAt != None && now < st.retryScheduledAt.value {
        KeepPending(g, false);
        return;
      }
      if activeCount >= CurrentMax() {
        KeepPending(g, true);
        return;
      }
      RunForGroup(g);
    }

    method EnqueueTask(g: Jid, t: TaskId)
      requires Valid()
      modifies this, Records()
      ensures Valid() && fresh(Records() - old(Records()))
      ensures View() == OnTaskRequest(limits, old(View()), g, t)
    {
      if shuttingDown { return; }
      var st := GetGroup(g);
      assert Get(View(), g) == st.View();
      if st.runningTaskId == Some(t) { return; }
      if t in st.pendingTasks { return; }
      NoteAccepted(g, t);
      QueueOrRunTask(g, t);
    }

    method QueueOrRunTask(g: Jid, t: TaskId)
      requires Valid() && g in groups
      modifies this, groups[g]
      ensures Valid() && groups == old(groups) && View() == QueueTask(limits, old(View()), g, t)
    {
      hide StartTask, List;
      var st := groups[g];
      assert Get(View(), g) == st.View();
      if st.runPhase != Idle {
        PushTaskOf(g, t);
        return;
      }
      if activeCount >= CurrentMax() || activeTaskCount >= limits.MaxTasks() {
        PushTaskOf(g, t);
        AddToWaiting(g);
        return;
      }
      RunTask(g, t);
    }

    method RegisterProcess(g: Jid, ipcDir: bool)
      requires Valid()
      modifies this, Records()
      ensures Valid() && fresh(Records() - old(Records()))
      ensures View() == OnRegisterProcess(old(View()), g, ipcDir)
    {
      var st := GetGroup(g);
      NoteProcessOf(g, ipcDir);
    }

    method CloseStdin(g: Jid)
      requires Valid()
      modifies this, Records()
      ensures Valid() && fresh(Records() - old(Records()))
      ensures View() == OnCloseStdin(old(View()), g)
    {
      var st := GetGroup(g);
      var error := CloseOf(g);
      NoteError(error);
    }

    // ---- timers and modes

    method SetProcessMessagesFn()
      requires Valid()
      modifies this, Records()
      ensures Valid() && fresh(Records() - old(Records()))
      ensures View() == Step(limits, old(View()), SetHandler)
    {
      hide OnMessageCheck, OnTaskRequest, OnRetryFires, OnRegisterProcess,
           OnCloseStdin, OnShutdown, OnMessageRunEnds, OnTaskRunEnds, QueueSteps.DrainWaiting;
      handler := true;
      assert View() == old(View()).(handler := true);
      DrainWaiting();
    }

    method EnterRecoveryMode()
      requires Valid()
      modifies this`recoveryMode
      ensures Valid() && View() == Step(limits, old(View()), EnterRecovery)
    {
      hide OnMessageCheck, OnTaskRequest, OnRetryFires, OnRegisterProcess,
           OnCloseStdin, OnShutdown, OnMessageRunEnds, OnTaskRunEnds, QueueSteps.DrainWaiting;
      recoveryMode := true;
      assert GroupsView() == old(GroupsView());
    }

    method RecoveryTimerFires()
      requires Valid()
      modifies this, Records()
      ensures Valid() && fresh(Records() - old(Records()))
      ensures View() == Step(limits, old(View()), RecoveryEnds)
    {
      hide OnMessageCheck, OnTaskRequest, OnRetryFires, OnRegisterProcess,
           OnCloseStdin, OnShutdown, OnMessageRunEnds, OnTaskRunEnds, QueueSteps.DrainWaiting;
      recoveryMode := false;
      assert View() == old(View()).(recoveryMode := false);
      DrainWaiting();
    }

    method RetryTimerFires(g: Jid, now: int)
      requires Valid() && g in groups
      modifies this, Records()
      ensures Valid() && fresh(Records() - old(Records()))
      ensures View() == OnRetryFires(limits, old(View()), g, now)
    {
      ClearRetryOf(g);
      if !shuttingDown {
        EnqueueMessageCheck(g, false, now);
      }
    }

    method ShutDownOf(g: Jid) returns (error: bool)
      requires Valid() && g in groups
      modifies groups[g]
      ensures Valid() && GroupsView() == old(GroupsView())[g := ShutdownGroup(old(groups[g].View()))]
      ensures error == ShutdownReports(old(groups[g].View()))
    {
      error := groups[g].ShutDown();
    }

    /** The queue when shutdown has treated the groups in `done`. */
    ghost function ShutSome(s: Queue, done: set<Jid>): Queue {
      s.(shuttingDown := true,
      groups := map g | g in s.groups :: if g in done then ShutdownGroup(s.groups[g]) else s.groups[g],
      reported := s.reported || exists g :: g in s.groups && g in done && ShutdownReports(s.groups[g]))
    }

    lemma ShutOneMore(s: Queue, done: set<Jid>, g: Jid)
      requires g in s.groups && g !in done
      ensures var p := ShutSome(s, done);
              && Get(p, g) == s.groups[g]
              && p.(groups := p.groups[g := ShutdownGroup(s.groups[g])],
                 reported := p.reported || ShutdownReports(s.groups[g])) == ShutSome(s, done + {g})
    {
      var p, q := ShutSome(s, done), ShutSome(s, done + {g});
      assert p.groups[g := ShutdownGroup(s.groups[g])] == q.groups;
      assert q.reported == (p.reported || ShutdownReports(s.groups[g]));
    }

    lemma ShutEnds(s: Queue)
      ensures ShutSome(s, {}) == s.(shuttingDown := true)
      ensures ShutSome(s, s.groups.Keys) == OnShutdown(s)
    {
      assert ShutSome(s, {}).groups == s.groups;
      assert ShutSome(s, s.groups.Keys).groups == OnShutdown(s).groups;
    }

    method BeginShutdown()
      requires Valid()
      modifies this`shuttingDown
      ensures Valid() && View() == old(View()).(shuttingDown := true)
    {
      shuttingDown := true;
    }

    method ShutNext(g: Jid, ghost s: Queue, ghost done: set<Jid>)
      requires Valid() && g in groups && g !in done && g in s.groups && View() == ShutSome(s, done)
      modifies this`reported, groups[g]
      ensures Valid() && View() == ShutSome(s, done + {g})
    {
      hide ShutSome, ShutdownGroup, ShutdownReports;
      assert Get(View(), g) == groups[g].View();
      ShutOneMore(s, done, g);
      var error := ShutDownOf(g);
      NoteError(error);
    }

    /** Clears every retry and asks the running message processes to close. */
    method Shutdown()
      requires Valid()
      modifies this, Records()
      ensures Valid() && groups == old(groups)
      ensures View() == OnShutdown(old(View()))
    {
      hide ShutSome, OnShutdown, ShutdownGroup, ShutdownReports;
      ghost var s := View();
      ShutEnds(s);
      BeginShutdown();
      var todo := groups.Keys;
      ghost var done := {};
      while todo != {}
        invariant Valid() && groups == old(groups)
        invariant done + todo == groups.Keys && done !! todo
        invariant View() == ShutSome(s, done)
        decreases todo
      {
        var g :| g in todo;
        ShutNext(g, s, done);
        todo, done := todo - {g}, done + {g};
      }
      assert done == s.groups.Keys;
    }
  }
}
