/** Histories on which the code does not do what one might expect of it. Every lemma of the first
    part returns such a history; the events are in its body, in order. */
module QueueTraces {
  import opened Basics
  import opened QueueState
  import opened QueueSteps
  import opened QueueInvariants
  import opened QueueOneRun
  import opened QueueCapacity

  /** One event of a history: skipped when it is impossible. */
  function Do(c: Limits, s: Queue, e: Event): Queue {
    if Enabled(s, e) then Step(c, s, e) else s
  }

  lemma Then(c: Limits, es: seq<Event>, e: Event)
    ensures Exec(c, EMPTY_QUEUE, es + [e]) == Do(c, Exec(c, EMPTY_QUEUE, es), e)
  {
    assert (es + [e])[..|es|] == es;
  }

  const TWO := Limits(2, 1)
  const THREE := Limits(3, 1)
  const BUSY := FRESH_GROUP.(runPhase := RunningTask, runningTaskId := Some("t"))

  /** Group a is running its task t, and nothing else has happened. */
  ghost predicate OnlyTaskOfA(s: Queue, handler: bool) {
    && s.handler == handler && !s.shuttingDown && !s.recoveryMode
    && s.activeCount == 1 && s.activeTaskCount == 1 && s.waiting == [] && s.nextRun == 0
    && s.msgRuns == multiset{} && s.taskRuns == multiset{("a", "t")}
    && Get(s, "a") == BUSY && Get(s, "b") == FRESH_GROUP && Get(s, "c") == FRESH_GROUP
  }

  lemma TaskOfAStarts(c: Limits, s: Queue)
    requires c.maxAgents >= 2 && s == EMPTY_QUEUE.(handler := s.handler)
    ensures OnlyTaskOfA(Do(c, s, TaskRequest("a", "t")), s.handler)
  {
    assert !Duplicate(Get(s, "a"), "t") && "a"[0] != "b"[0] && "a"[0] != "c"[0];
  }

  lemma Prefix(c: Limits) returns (es: seq<Event>)
    requires c.maxAgents >= 2
    ensures OnlyTaskOfA(Exec(c, EMPTY_QUEUE, es), true)
  {
    Then(c, [], SetHandler);
    Then(c, [] + [SetHandler], TaskRequest("a", "t"));
    assert Do(c, EMPTY_QUEUE, SetHandler) == EMPTY_QUEUE.(handler := true);
    TaskOfAStarts(c, EMPTY_QUEUE.(handler := true));
    es := [] + [SetHandler] + [TaskRequest("a", "t")];
  }

  lemma DrainOnly(c: Limits, s: Queue, g: Jid)
    requires s.waiting == [g] && s.activeCount < EffectiveMax(c, s)
    requires Get(s, g).pendingMessages || TaskReady(c, s, g)
    ensures var s1 := s.(waiting := []);
            DrainWaiting(c, s) == if Get(s, g).pendingMessages then DrainWaiting(c, RunForGroup(c, s1, g))
                                  else DrainWaiting(c, StartQueued(s1, g))
  {
    assert NextIndex(c, s) == 0;
    assert Unlist(s, 0) == s.(waiting := []);
  }

  lemma DrainNobody(c: Limits, s: Queue)
    requires s.waiting == []
    ensures DrainWaiting(c, s) == s
  {
  }

  // ---- two runs of one group

  ghost predicate BWaitsForTaskSlot(s: Queue) {
    && s.handler && !s.shuttingDown && !s.recoveryMode
    && s.activeCount == 1 && s.activeTaskCount == 1 && s.waiting == ["b"] && s.nextRun == 0
    && s.taskRuns == multiset{("a", "t")} && Get(s, "a") == BUSY
    && Get(s, "b").runPhase == Idle && Get(s, "b").pendingTasks == ["u"] && !Get(s, "b").pendingMessages
    && Get(s, "b").retryScheduledAt.None?
  }

  ghost predicate BRunsAndIsListed(s: Queue, pending: bool) {
    && s.handler && !s.shuttingDown && !s.recoveryMode
    && s.activeCount == 2 && s.activeTaskCount == 1 && s.waiting == ["b"] && s.nextRun == 1
    && s.taskRuns == multiset{("a", "t")} && ("b", 0) in s.msgRuns && Get(s, "a") == BUSY
    && Get(s, "b").runPhase == RunningMessages && Get(s, "b").currentRunId == Some(0)
    && Get(s, "b").pendingTasks == ["u"] && Get(s, "b").pendingMessages == pending
  }

  lemma BIsListed(s: Queue)
    requires OnlyTaskOfA(s, true)
    ensures BWaitsForTaskSlot(Do(TWO, s, TaskRequest("b", "u")))
  {
    assert "a"[0] != "b"[0] && !Duplicate(Get(s, "b"), "u");
  }

  lemma BStartsDirectly(s: Queue)
    requires BWaitsForTaskSlot(s)
    ensures BRunsAndIsListed(Do(TWO, s, MessageCheck("b", false, 0)), false)
  {
    assert "a"[0] != "b"[0];
  }

  /** The end of the task of a drains the list into b, which is still running. */
  lemma BIsDrained(s: Queue, pending: bool)
    requires BRunsAndIsListed(s, pending)
    ensures var s1 := EndTask(s, "a", "t").(waiting := []);
            && Get(s1, "b") == Get(s, "b") && s1.msgRuns == s.msgRuns && s1.nextRun == s.nextRun
            && Do(TWO, s, TaskRunEnds("a", "t"))
               == if pending then StartMessages(s1, "b") else StartQueued(s1, "b")
  {
    hide AssertReports, TransitionReports, StartMessages, StartQueued;
    assert "a"[0] != "b"[0] && ("a", "t") in s.taskRuns;
    var s1 := EndTask(s, "a", "t");
    assert Get(s1, "b") == Get(s, "b") && s1.waiting == ["b"] && s1.activeCount == 1;
    assert DrainGroup(TWO, s1, "a") == DrainWaiting(TWO, s1);
    DrainOnly(TWO, s1, "b");
    StartsOne(s1.(waiting := []), "b");
    if pending {
      assert RunForGroup(TWO, s1.(waiting := []), "b") == StartMessages(s1.(waiting := []), "b");
      DrainNobody(TWO, StartMessages(s1.(waiting := []), "b"));
    } else {
      DrainNobody(TWO, StartQueued(s1.(waiting := []), "b"));
    }
  }

  lemma BIsGivenItsTask(s: Queue)
    requires BRunsAndIsListed(s, false)
    ensures var r := Do(TWO, s, TaskRunEnds("a", "t"));
            ("b", 0) in r.msgRuns && ("b", "u") in r.taskRuns && r.reported
  {
    BIsDrained(s, false);
    hide Do, EndTask;
  }

  /** A group listed for a task slot starts a message run, stays listed, and is then given its
      task on top: two runs of one group at once, and the phase checks report it. */
  lemma TwoRunsOfOneGroup() returns (es: seq<Event>)
    ensures var s := Exec(TWO, EMPTY_QUEUE, es);
            ("b", 0) in s.msgRuns && ("b", "u") in s.taskRuns && s.reported && !One(s)
  {
    es := Prefix(TWO);
    BIsListed(Exec(TWO, EMPTY_QUEUE, es));
    Then(TWO, es, TaskRequest("b", "u"));
    es := es + [TaskRequest("b", "u")];
    BStartsDirectly(Exec(TWO, EMPTY_QUEUE, es));
    Then(TWO, es, MessageCheck("b", false, 0));
    es := es + [MessageCheck("b", false, 0)];
    BIsGivenItsTask(Exec(TWO, EMPTY_QUEUE, es));
    Then(TWO, es, TaskRunEnds("a", "t"));
    es := es + [TaskRunEnds("a", "t")];
  }

  lemma BHearsMoreWhileItRuns(s: Queue)
    requires BRunsAndIsListed(s, false)
    ensures BRunsAndIsListed(Do(TWO, s, MessageCheck("b", false, 0)), true)
  {
    assert "a"[0] != "b"[0];
  }

  lemma BIsGivenItsMessages(s: Queue)
    requires BRunsAndIsListed(s, true)
    ensures var r := Do(TWO, s, TaskRunEnds("a", "t"));
            ("b", 0) in r.msgRuns && ("b", 1) in r.msgRuns && Get(r, "b").currentRunId == Some(1)
  {
    BIsDrained(s, true);
    hide Do, EndTask;
  }

  /** The same with messages: the drain starts a second message run on top of the first, whose run id is
      overwritten. */
  lemma TwoMessageRunsOfOneGroup() returns (es: seq<Event>)
    ensures var s := Exec(TWO, EMPTY_QUEUE, es);
            ("b", 0) in s.msgRuns && ("b", 1) in s.msgRuns && Get(s, "b").currentRunId == Some(1)
  {
    es := Prefix(TWO);
    BIsListed(Exec(TWO, EMPTY_QUEUE, es));
    Then(TWO, es, TaskRequest("b", "u"));
    es := es + [TaskRequest("b", "u")];
    BStartsDirectly(Exec(TWO, EMPTY_QUEUE, es));
    Then(TWO, es, MessageCheck("b", false, 0));
    es := es + [MessageCheck("b", false, 0)];
    BHearsMoreWhileItRuns(Exec(TWO, EMPTY_QUEUE, es));
    Then(TWO, es, MessageCheck("b", false, 0));
    es := es + [MessageCheck("b", false, 0)];
    BIsGivenItsMessages(Exec(TWO, EMPTY_QUEUE, es));
    Then(TWO, es, TaskRunEnds("a", "t"));
    es := es + [TaskRunEnds("a", "t")];
  }

  // ---- the task limit

  ghost predicate BRunsMessages(s: Queue, tasks: seq<TaskId>) {
    && s.handler && !s.shuttingDown && s.activeTaskCount == 1 && ("b", 0) in s.msgRuns
    && Get(s, "b").runPhase == RunningMessages && Get(s, "b").runningTaskId.None? && Get(s, "b").pendingTasks == tasks
  }

  lemma BRuns(s: Queue)
    requires OnlyTaskOfA(s, true)
    ensures BRunsMessages(Do(TWO, s, MessageCheck("b", false, 0)), [])
  {
    assert "a"[0] != "b"[0];
  }

  lemma BHasATask(s: Queue)
    requires BRunsMessages(s, [])
    ensures BRunsMessages(Do(TWO, s, TaskRequest("b", "u")), ["u"])
  {
  }

  lemma BGoesOnWithItsTask(s: Queue)
    requires BRunsMessages(s, ["u"])
    ensures Do(TWO, s, MessageRunEnds("b", 0, Success, 0)).activeTaskCount == 2
  {
  }

  /** A message run that ends while its group has a task waiting starts that task without looking
      at the task limit. */
  lemma TaskLimitExceeded() returns (es: seq<Event>)
    ensures Exec(TWO, EMPTY_QUEUE, es).activeTaskCount > TWO.MaxTasks()
  {
    es := Prefix(TWO);
    BRuns(Exec(TWO, EMPTY_QUEUE, es));
    Then(TWO, es, MessageCheck("b", false, 0));
    es := es + [MessageCheck("b", false, 0)];
    BHasATask(Exec(TWO, EMPTY_QUEUE, es));
    Then(TWO, es, TaskRequest("b", "u"));
    es := es + [TaskRequest("b", "u")];
    BGoesOnWithItsTask(Exec(TWO, EMPTY_QUEUE, es));
    Then(TWO, es, MessageRunEnds("b", 0, Success, 0));
    es := es + [MessageRunEnds("b", 0, Success, 0)];
  }

  // ---- a task slot left unused

  ghost predicate ABRunTasks(s: Queue, waiting: seq<Jid>, pending: bool) {
    && s.handler && !s.shuttingDown && !s.recoveryMode
    && s.activeCount == 2 && s.activeTaskCount == 2 && s.waiting == waiting
    && ("a", "t") in s.taskRuns && Get(s, "a") == BUSY.(pendingMessages := pending)
    && Get(s, "c") == FRESH_GROUP.(pendingTasks := Get(s, "c").pendingTasks, pushed := Get(s, "c").pendingTasks)
    && Get(s, "c").pendingTasks == if waiting == [] then [] else ["v"]
  }

  lemma BRunsATask(s: Queue)
    requires OnlyTaskOfA(s, true)
    ensures ABRunTasks(Do(THREE, s, TaskRequest("b", "u")), [], false)
  {
    assert "a"[0] != "b"[0] && "c"[0] != "b"[0] && !Duplicate(Get(s, "b"), "u");
  }

  lemma CIsListed(s: Queue)
    requires ABRunTasks(s, [], false)
    ensures ABRunTasks(Do(THREE, s, TaskRequest("c", "v")), ["c"], false)
  {
    assert "a"[0] != "c"[0] && !Duplicate(Get(s, "c"), "v");
  }

  lemma AHasMessages(s: Queue)
    requires ABRunTasks(s, ["c"], false)
    ensures ABRunTasks(Do(THREE, s, MessageCheck("a", false, 0)), ["c"], true)
  {
    assert "a"[0] != "c"[0];
  }

  lemma AGoesOnWithMessages(s: Queue)
    requires ABRunTasks(s, ["c"], true)
    ensures var r := Do(THREE, s, TaskRunEnds("a", "t"));
            "c" in r.waiting && Get(r, "c").runPhase == Idle && TaskReady(THREE, r, "c")
            && r.activeCount < EffectiveMax(THREE, r)
  {
    assert "a"[0] != "c"[0];
    var s1 := EndTask(s, "a", "t");
    assert DrainGroup(THREE, s1, "a") == StartMessages(s1, "a");
  }

  /** A task slot that becomes free by a run end is not offered to the list when the group of that
      run goes on with its own messages: c stays listed although it could start. */
  lemma TaskSlotLeftUnused() returns (es: seq<Event>)
    ensures var s := Exec(THREE, EMPTY_QUEUE, es);
            "c" in s.waiting && Get(s, "c").runPhase == Idle && TaskReady(THREE, s, "c")
            && s.activeCount < EffectiveMax(THREE, s)
  {
    es := Prefix(THREE);
    BRunsATask(Exec(THREE, EMPTY_QUEUE, es));
    Then(THREE, es, TaskRequest("b", "u"));
    es := es + [TaskRequest("b", "u")];
    CIsListed(Exec(THREE, EMPTY_QUEUE, es));
    Then(THREE, es, TaskRequest("c", "v"));
    es := es + [TaskRequest("c", "v")];
    AHasMessages(Exec(THREE, EMPTY_QUEUE, es));
    Then(THREE, es, MessageCheck("a", false, 0));
    es := es + [MessageCheck("a", false, 0)];
    AGoesOnWithMessages(Exec(THREE, EMPTY_QUEUE, es));
    Then(THREE, es, TaskRunEnds("a", "t"));
    es := es + [TaskRunEnds("a", "t")];
  }

  /** No idle listed group has a task that the free slots would allow. */
  ghost predicate TasksUsed(c: Limits, s: Queue) {
    s.activeCount < EffectiveMax(c, s) && s.activeTaskCount < c.MaxTasks() ==> NoTaskWaits(s, s.waiting)
  }

  ghost predicate NoTaskWaits(s: Queue, among: seq<Jid>) {
    forall h :: h in among ==> Get(s, h).runPhase != Idle || Get(s, h).pendingTasks == []
  }

  /** Another idle group is listed and waits with a task. */
  ghost predicate OtherTaskWaits(s: Queue, g: Jid) {
    exists h :: h in s.waiting && h != g && Get(s, h).runPhase == Idle && Get(s, h).pendingTasks != []
  }

  /** The end of a task run leaves the task slots used exactly when it is not the case that its group goes
      on with messages while a slot is free and another idle group waits for one with a task. */
  lemma TaskEndUsesSlots(c: Limits, s: Queue, g: Jid, t: TaskId)
    requires !s.shuttingDown && TasksUsed(c, s)
    ensures var st := Get(s, g);
            TasksUsed(c, OnTaskRunEnds(c, s, g, t))
            <==> !(&& s.handler && st.pendingTasks == [] && st.pendingMessages
                   && s.activeCount < EffectiveMax(c, s) && s.activeTaskCount - 1 < c.MaxTasks()
                   && OtherTaskWaits(s, g))
  {
    hide AssertReports, TransitionReports, OnTaskRunEnds, DrainGroup, StartMessages, StartQueued, EndTask;
    var st, s1 := Get(s, g), EndTask(s, g, t);
    TaskEnded(s, g, t);
    assert OnTaskRunEnds(c, s, g, t) == DrainGroup(c, s1, g) by { TaskEndDrains(c, s, g, t); }
    RunEndGoesOn(c, s1, g);
    if st.pendingTasks != [] {
      QueuedStarted(s1, g);
    } else if st.pendingMessages && s.handler {
      MessagesStarted(s1, g);
    }
  }

  lemma TaskEndDrains(c: Limits, s: Queue, g: Jid, t: TaskId)
    ensures OnTaskRunEnds(c, s, g, t) == DrainGroup(c, EndTask(s, g, t), g)
  {
    hide DrainGroup, EndTask;
  }

  /** Whatever is drained, no usable task slot is left to a waiting task. */
  lemma DrainUsesSlots(c: Limits, s: Queue)
    ensures TasksUsed(c, DrainWaiting(c, s))
  {
    hide DrainWaiting;
    DrainWaitingExit(c, s);
  }

  /** How the end of a run goes on, before shutdown: with one start of its group, or in a drain. */
  lemma RunEndGoesOn(c: Limits, s: Queue, g: Jid)
    requires !s.shuttingDown
    ensures var st := Get(s, g);
            if st.pendingTasks != [] then DrainGroup(c, s, g) == StartQueued(s, g)
            else if st.pendingMessages && s.handler then DrainGroup(c, s, g) == StartMessages(s, g)
            else TasksUsed(c, DrainGroup(c, s, g))
  {
    hide AssertReports, TransitionReports, TasksUsed, StartQueued;
    var st := Get(s, g);
    if st.pendingTasks == [] {
      if !st.pendingMessages {
        DrainUsesSlots(c, s);
      } else if s.handler {
        assert RunForGroup(c, s, g) == StartMessages(s, g);
      } else {
        var s1 := EndMessages(StartMessages(s, g), g, s.nextRun);
        assert Get(s1, g).pendingTasks == [] && !Get(s1, g).pendingMessages;
        assert DrainGroup(c, s1, g) == DrainWaiting(c, s1);
        assert RunForGroup(c, s, g) == DrainGroup(c, s1, g);
        DrainUsesSlots(c, s1);
      }
    }
  }

  ghost predicate SameOthers(s: Queue, r: Queue, g: Jid) {
    r.waiting == s.waiting && SameModes(s, r) && forall h :: h != g ==> Get(r, h) == Get(s, h)
  }

  lemma TaskEnded(s: Queue, g: Jid, t: TaskId)
    ensures var r := EndTask(s, g, t);
            && SameOthers(s, r, g)
            && r.activeCount == s.activeCount - 1 && r.activeTaskCount == s.activeTaskCount - 1
            && Get(r, g).pendingTasks == Get(s, g).pendingTasks
            && Get(r, g).pendingMessages == Get(s, g).pendingMessages
  {
    hide AssertReports, TransitionReports;
  }

  lemma QueuedStarted(s: Queue, g: Jid)
    requires Get(s, g).pendingTasks != []
    ensures var r := StartQueued(s, g);
            && SameOthers(s, r, g) && Get(r, g).runPhase == RunningTask
            && r.activeCount == s.activeCount + 1 && r.activeTaskCount == s.activeTaskCount + 1
  {
    hide AssertReports, TransitionReports;
  }

  lemma MessagesStarted(s: Queue, g: Jid)
    ensures var r := StartMessages(s, g);
            && SameOthers(s, r, g) && Get(r, g).runPhase == RunningMessages
            && r.activeCount == s.activeCount + 1 && r.activeTaskCount == s.activeTaskCount
  {
    hide AssertReports, TransitionReports;
  }

  lemma MessagesEnded(s: Queue, g: Jid, run: RunId, outcome: Outcome, now: int)
    ensures var r := Ended(s, g, run, outcome, now);
            && SameOthers(s, r, g)
            && r.activeCount == s.activeCount - 1 && r.activeTaskCount == s.activeTaskCount
            && Get(r, g).pendingTasks == Get(s, g).pendingTasks
            && Get(r, g).pendingMessages == Get(s, g).pendingMessages
  {
    hide AssertReports, TransitionReports;
  }

  lemma MessageEndUsesSlots(c: Limits, s: Queue, g: Jid, run: RunId, outcome: Outcome, now: int)
    requires !s.shuttingDown && TasksUsed(c, s)
    ensures TasksUsed(c, OnMessageRunEnds(c, s, g, run, outcome, now))
  {
    hide AssertReports, TransitionReports, DrainGroup, StartMessages, StartQueued, Ended;
    var s1 := Ended(s, g, run, outcome, now);
    MessagesEnded(s, g, run, outcome, now);
    RunEndGoesOn(c, s1, g);
    if Get(s1, g).pendingTasks != [] {
      QueuedStarted(s1, g);
    } else if Get(s1, g).pendingMessages && s.handler {
      MessagesStarted(s1, g);
    }
  }

  lemma RecordUsesSlots(c: Limits, s: Queue, g: Jid, st: Group)
    requires TasksUsed(c, s) && (st.runPhase == Get(s, g).runPhase || st.runPhase != Idle)
    requires st.pendingTasks == Get(s, g).pendingTasks
    ensures TasksUsed(c, Put(s, g, st))
  {
    assert forall h :: h != g ==> Get(Put(s, g, st), h) == Get(s, h);
  }

  lemma MessageCheckUsesSlots(c: Limits, s: Queue, g: Jid, ipcDir: bool, now: int)
    requires TasksUsed(c, s) && Wake(s, g)
    ensures TasksUsed(c, OnMessageCheck(c, s, g, ipcDir, now))
  {
    hide CheckMessages, TasksUsed;
    RecordUsesSlots(c, s, g, Get(s, g).(hasIpcDir := Get(s, g).hasIpcDir || ipcDir));
    CheckUsesSlots(c, NoteIpc(s, g, ipcDir), g, now);
  }

  lemma RetryUsesSlots(c: Limits, s: Queue, g: Jid, now: int)
    requires TasksUsed(c, s) && Inv(s) && !s.shuttingDown
    ensures TasksUsed(c, OnRetryFires(c, s, g, now))
  {
    hide CheckMessages, TasksUsed, AssertReports, TransitionReports, Core;
    var s1 := Put(s, g, Get(s, g).(retryTimer := false, retryScheduledAt := None));
    RecordUsesSlots(c, s, g, Get(s1, g));
    var n := NoteIpc(s1, g, false);
    RecordUsesSlots(c, s1, g, Get(n, g));
    assert |Get(n, g).pendingTasks| > 0 ==> Get(n, g).runPhase != Idle || g in n.waiting by {
      assert Wake(s, g);
    }
    CheckUsesSlots(c, n, g, now);
  }

  /** A start of an unbusy or a busy group only takes slots. */
  lemma MessageStartUsesSlots(c: Limits, s: Queue, g: Jid)
    requires TasksUsed(c, s)
    ensures TasksUsed(c, StartMessages(s, g))
  {
    hide StartMessages;
    MessagesStarted(s, g);
  }

  lemma ListUsesSlots(c: Limits, s: Queue, g: Jid)
    requires TasksUsed(c, s)
    requires Get(s, g).pendingTasks != [] && Get(s, g).runPhase == Idle && g !in s.waiting ==>
               s.activeCount >= EffectiveMax(c, s) || s.activeTaskCount >= c.MaxTasks()
    ensures TasksUsed(c, List(s, g))
  {
    assert forall h :: Get(List(s, g), h) == Get(s, h);
  }

  /** A check of a group that is busy or listed if it has tasks. */
  lemma CheckUsesSlots(c: Limits, s: Queue, g: Jid, now: int)
    requires TasksUsed(c, s) && (|Get(s, g).pendingTasks| > 0 ==> Get(s, g).runPhase != Idle || g in s.waiting)
    ensures TasksUsed(c, CheckMessages(c, s, g, now))
  {
    hide AssertReports, TransitionReports, StartMessages, TasksUsed, List, Backoff;
    RecordUsesSlots(c, s, g, Get(s, g).(pendingMessages := true));
    ListUsesSlots(c, MarkPending(s, g), g);
    MessageStartUsesSlots(c, s, g);
  }

  lemma TaskStarted(s: Queue, g: Jid, t: TaskId)
    ensures var r := StartTask(s, g, t);
            && SameOthers(s, r, g) && Get(r, g).runPhase == RunningTask
            && r.activeCount == s.activeCount + 1 && r.activeTaskCount == s.activeTaskCount + 1
  {
    hide AssertReports, TransitionReports;
  }

  lemma TaskRequestUsesSlots(c: Limits, s: Queue, g: Jid, t: TaskId)
    requires TasksUsed(c, s)
    ensures TasksUsed(c, OnTaskRequest(c, s, g, t))
  {
    hide AssertReports, TransitionReports, StartTask, TasksUsed;
    RecordUsesSlots(c, s, g, Get(s, g));
    var s1 := Accept(Touch(s, g), g, t);
    assert TasksUsed(c, s1) by { AcceptUsesSlots(c, Touch(s, g), g, t); }
    QueueTaskUsesSlots(c, s1, g, t);
  }

  lemma AcceptUsesSlots(c: Limits, s: Queue, g: Jid, t: TaskId)
    requires TasksUsed(c, s)
    ensures TasksUsed(c, Accept(s, g, t))
  {
    assert forall h :: Get(Accept(s, g, t), h) == Get(s, h);
  }

  lemma QueueTaskUsesSlots(c: Limits, s: Queue, g: Jid, t: TaskId)
    requires TasksUsed(c, s)
    ensures TasksUsed(c, QueueTask(c, s, g, t))
  {
    hide AssertReports, TransitionReports, StartTask, Push;
    TaskStarted(s, g, t);
    TaskPushed(s, g, t);
  }

  lemma TaskPushed(s: Queue, g: Jid, t: TaskId)
    ensures var r := Push(s, g, t);
            && SameOthers(s, r, g) && Get(r, g).runPhase == Get(s, g).runPhase
            && r.activeCount == s.activeCount && r.activeTaskCount == s.activeTaskCount
  {
  }

  lemma RecordsUseSlots(c: Limits, s: Queue, e: Event)
    requires TasksUsed(c, s) && (e.RegisterProcess? || e.CloseStdin?)
    ensures TasksUsed(c, Step(c, s, e))
  {
    hide AssertReports, TransitionReports;
    match e
    case RegisterProcess(g, ipcDir) =>
      RecordUsesSlots(c, s, g, Get(s, g));
      var st := Get(s, g);
      RecordUsesSlots(c, Touch(s, g), g, st.(hasProcess := true, hasIpcDir := st.hasIpcDir || ipcDir));
    case CloseStdin(g) =>
      var r := Step(c, s, e);
      assert forall h :: h != g ==> Get(r, h) == Get(s, h);
  }

  lemma ShutdownUsesSlots(c: Limits, s: Queue)
    requires TasksUsed(c, s)
    ensures TasksUsed(c, OnShutdown(s))
  {
    hide AssertReports, TransitionReports;
    var r := OnShutdown(s);
    forall h ensures (Get(r, h).runPhase == Idle <==> Get(s, h).runPhase == Idle)
             ensures Get(r, h).pendingTasks == Get(s, h).pendingTasks {
    }
  }

  /** Where a usable task slot is left although a task waits: at the end of a task run whose group goes on
      with messages, and where recovery opens more slots than it closes. */
  ghost predicate LeavesTaskSlot(c: Limits, s: Queue, e: Event) {
    match e
    case TaskRunEnds(g, _) =>
      && s.handler && Get(s, g).pendingTasks == [] && Get(s, g).pendingMessages
      && s.activeCount < EffectiveMax(c, s) && s.activeTaskCount - 1 < c.MaxTasks()
      && OtherTaskWaits(s, g)
    case EnterRecovery =>
      s.activeCount < c.recoveryAgents && s.activeTaskCount < c.MaxTasks() && !NoTaskWaits(s, s.waiting)
    case _ => false
  }

  /** Before shutdown, with a handler or without, a block stops using the task slots exactly there. */
  lemma TaskSlotsStep(c: Limits, s: Queue, e: Event)
    requires Inv(s) && Enabled(s, e) && !s.shuttingDown && TasksUsed(c, s)
    ensures TasksUsed(c, Step(c, s, e)) <==> !LeavesTaskSlot(c, s, e)
  {
    hide AssertReports, TransitionReports, DrainWaiting, OnMessageCheck, OnTaskRequest, OnRetryFires, OnShutdown,
         OnRegisterProcess, OnCloseStdin, OnMessageRunEnds, OnTaskRunEnds, Core, OtherTaskWaits;
    match e
    case SetHandler => DrainUsesSlots(c, s.(handler := true));
    case RecoveryEnds => DrainUsesSlots(c, s.(recoveryMode := false));
    case EnterRecovery => assert forall h :: Get(s.(recoveryMode := true), h) == Get(s, h);
    case MessageCheck(g, ipcDir, now) => MessageCheckUsesSlots(c, s, g, ipcDir, now);
    case TaskRequest(g, t) => TaskRequestUsesSlots(c, s, g, t);
    case RegisterProcess(_, _) => RecordsUseSlots(c, s, e);
    case CloseStdin(_) => RecordsUseSlots(c, s, e);
    case MessageRunEnds(g, run, outcome, now) => MessageEndUsesSlots(c, s, g, run, outcome, now);
    case TaskRunEnds(g, t) => TaskEndUsesSlots(c, s, g, t);
    case RetryFires(g, now) => RetryUsesSlots(c, s, g, now);
    case Shutdown => ShutdownUsesSlots(c, s);
  }

  // ---- messages lost before there is a handler

  ghost predicate BWaitsForHandler(s: Queue) {
    && !s.handler && !s.shuttingDown && !s.recoveryMode && s.activeCount == 1
    && s.waiting == ["b"] && s.msgRuns == multiset{} && s.taskRuns == multiset{("a", "t")} && Get(s, "a") == BUSY
    && Get(s, "b") == FRESH_GROUP.(pendingMessages := true)
  }

  lemma BAsksForMessages(s: Queue)
    requires OnlyTaskOfA(s, false)
    ensures BWaitsForHandler(Do(TWO, s, MessageCheck("b", false, 0)))
  {
    assert "a"[0] != "b"[0];
  }

  lemma BIsDropped(s: Queue)
    requires BWaitsForHandler(s)
    ensures var r := Do(TWO, s, TaskRunEnds("a", "t"));
            !Get(r, "b").pendingMessages && "b" !in r.waiting && r.msgRuns == multiset{} && !r.handler
  {
    hide EndTask, DrainGroup;
    TaskOfAEnds(s);
    RestIsDrained(EndTask(s, "a", "t"));
  }

  ghost predicate OnlyBWaits(s: Queue) {
    && !s.handler && !s.shuttingDown && !s.recoveryMode && s.activeCount == 0
    && s.waiting == ["b"] && s.msgRuns == multiset{}
    && Get(s, "b") == FRESH_GROUP.(pendingMessages := true)
    && Get(s, "a").pendingTasks == [] && !Get(s, "a").pendingMessages
  }

  lemma TaskOfAEnds(s: Queue)
    requires BWaitsForHandler(s)
    ensures OnlyBWaits(EndTask(s, "a", "t"))
  {
    assert "a"[0] != "b"[0];
  }

  lemma RestIsDrained(s: Queue)
    requires OnlyBWaits(s)
    ensures var r := DrainGroup(TWO, s, "a");
            !Get(r, "b").pendingMessages && "b" !in r.waiting && r.msgRuns == multiset{} && !r.handler
  {
    hide AssertReports, TransitionReports;
    assert DrainGroup(TWO, s, "a") == DrainWaiting(TWO, s);
    DrainOnly(TWO, s, "b");
    RunWithoutHandler(s.(waiting := []));
    DrainNobody(TWO, RunForGroup(TWO, s.(waiting := []), "b"));
  }

  lemma RunWithoutHandler(s: Queue)
    requires !s.handler && s.waiting == [] && s.msgRuns == multiset{} && Get(s, "b").pendingTasks == []
    ensures var r := RunForGroup(TWO, s, "b");
            !Get(r, "b").pendingMessages && r.waiting == [] && r.msgRuns == multiset{}
  {
    var s1 := EndMessages(StartMessages(s, "b"), "b", s.nextRun);
    DrainNobody(TWO, s1);
    assert DrainGroup(TWO, s1, "b") == s1;
  }

  /** Starting a group touches neither the list nor the other records, and a task no message run. */
  lemma StartsOne(s: Queue, g: Jid)
    ensures var r := StartMessages(s, g);
            r.waiting == s.waiting && r.handler == s.handler && forall h :: h != g ==> Get(r, h) == Get(s, h)
    ensures |Get(s, g).pendingTasks| > 0 ==>
              var r := StartQueued(s, g);
              && r.waiting == s.waiting && r.handler == s.handler && r.msgRuns == s.msgRuns
              && forall h :: h != g ==> Get(r, h) == Get(s, h)
  {
    hide AssertReports, TransitionReports;
  }

  lemma {:induction false} DrainingWithoutHandler(c: Limits, s: Queue)
    requires !s.handler
    ensures DrainWaiting(c, s).msgRuns == s.msgRuns
    decreases |s.waiting|, 0, 0
  {
    hide AssertReports, TransitionReports, NextIndex, StartQueued, RunForGroup;
    var k := NextIndex(c, s);
    if |s.waiting| > 0 && s.activeCount < EffectiveMax(c, s) && k < |s.waiting| {
      var g, s1 := s.waiting[k], Unlist(s, k);
      StartsOne(s1, g);
      if Get(s1, g).pendingMessages {
        RunWithoutAnyHandler(c, s1, g);
        DrainingWithoutHandler(c, RunForGroup(c, s1, g));
      } else {
        DrainingWithoutHandler(c, StartQueued(s1, g));
      }
    }
  }

  lemma {:induction false} RunWithoutAnyHandler(c: Limits, s: Queue, g: Jid)
    requires !s.handler
    ensures RunForGroup(c, s, g).msgRuns == s.msgRuns
    decreases |s.waiting|, 1, 1
  {
    hide AssertReports, TransitionReports;
    var s1 := EndMessages(StartMessages(s, g), g, s.nextRun);
    assert s1.msgRuns == s.msgRuns;
    if s1.shuttingDown || |Get(s1, g).pendingTasks| > 0 {
    } else {
      DrainingWithoutHandler(c, s1);
    }
  }

  /** A message run that is started stays in flight, to process its messages, exactly when there is a
      handler; without one no message run is ever in flight, whatever is drained. */
  lemma MessagesNeedHandler(c: Limits, s: Queue, g: Jid)
    requires Inv(s)
    ensures (g, s.nextRun) in RunForGroup(c, s, g).msgRuns <==> s.handler
    ensures !s.handler ==> RunForGroup(c, s, g).msgRuns == s.msgRuns
  {
    hide AssertReports, TransitionReports, DrainGroup;
    assert GroupOk(s, g);
    if !s.handler {
      RunWithoutAnyHandler(c, s, g);
    }
  }

  /** Before the handler is installed, the end of a task run empties the waiting list into runs
      that process nothing: the queued message check of b is gone. */
  lemma MessagesLostWithoutHandler() returns (es: seq<Event>)
    ensures var s := Exec(TWO, EMPTY_QUEUE, es);
            && Get(s, "b").pendingMessages && "b" in s.waiting
            && Enabled(s, TaskRunEnds("a", "t"))
            && var r := Step(TWO, s, TaskRunEnds("a", "t"));
               !Get(r, "b").pendingMessages && "b" !in r.waiting && r.msgRuns == multiset{} && !r.handler
  {
    Then(TWO, [], TaskRequest("a", "t"));
    TaskOfAStarts(TWO, EMPTY_QUEUE);
    es := [] + [TaskRequest("a", "t")];
    BAsksForMessages(Exec(TWO, EMPTY_QUEUE, es));
    Then(TWO, es, MessageCheck("b", false, 0));
    es := es + [MessageCheck("b", false, 0)];
    BIsDropped(Exec(TWO, EMPTY_QUEUE, es));
  }

  // ---- the retry backoff

  /** What becomes of a group whose run has ended: its tasks come first, then its messages; its backoff
      stays. */
  lemma OwnGroupDrained(c: Limits, s: Queue, g: Jid)
    requires s.handler && !s.shuttingDown
    ensures var st, r := Get(s, g), Get(DrainGroup(c, s, g), g);
            && r.retryScheduledAt == st.retryScheduledAt
            && r.runPhase == if st.pendingTasks != [] then RunningTask
                             else if st.pendingMessages then RunningMessages
                             else st.runPhase
  {
    hide AssertReports, TransitionReports, DrainWaiting;
    if Get(s, g).pendingTasks == [] && !Get(s, g).pendingMessages {
      DrainKeepsWorkless(c, s, g);
    }
  }

  /** What the end of a run does about the backoff: the group is running again during its own
      backoff exactly when the run did not succeed, was not the last allowed retry, and messages
      but no tasks are pending. */
  lemma BackoffAfterRunEnd(c: Limits, s: Queue, g: Jid, run: RunId, outcome: Outcome, now: int)
    requires (g, run) in s.msgRuns && s.handler && !s.shuttingDown
    ensures var r := OnMessageRunEnds(c, s, g, run, outcome, now);
            var st := Get(s, g);
            Get(r, g).runPhase == RunningMessages && Backoff(Get(r, g), now)
            <==> outcome != Success && st.retryCount < MAX_RETRIES && st.pendingMessages && st.pendingTasks == []
  {
    hide AssertReports, TransitionReports, DrainGroup;
    Pow2Positive(Get(s, g).retryCount);
    OwnGroupDrained(c, Ended(s, g, run, outcome, now), g);
  }

  lemma {:induction false} Pow2Positive(n: nat)
    ensures Pow2(n) > 0
  {
    if n > 0 {
      Pow2Positive(n - 1);
    }
  }

  /** Draining the list leaves a group with nothing pending alone. */
  lemma {:induction false} DrainKeepsWorkless(c: Limits, s: Queue, g: Jid)
    requires s.handler && !Get(s, g).pendingMessages && Get(s, g).pendingTasks == []
    ensures Get(DrainWaiting(c, s), g) == Get(s, g)
    decreases |s.waiting|
  {
    hide NextIndex, StartMessages, StartQueued;
    var k := NextIndex(c, s);
    if |s.waiting| > 0 && s.activeCount < EffectiveMax(c, s) && k < |s.waiting| {
      var h, s1 := s.waiting[k], Unlist(s, k);
      StartsOne(s1, h);
      assert h != g;
      if Get(s1, h).pendingMessages {
        DrainKeepsWorkless(c, StartMessages(s1, h), g);
      } else {
        DrainKeepsWorkless(c, StartQueued(s1, h), g);
      }
    }
  }

  /** Message checks themselves do respect the backoff. */
  lemma ChecksRespectBackoff(c: Limits, s: Queue, g: Jid, ipcDir: bool, now: int)
    requires Backoff(Get(s, g), now)
    ensures var r := OnMessageCheck(c, s, g, ipcDir, now);
            && r.msgRuns == s.msgRuns && r.taskRuns == s.taskRuns && r.activeCount == s.activeCount
            && Get(r, g).retryScheduledAt == Get(s, g).retryScheduledAt
            && (!s.shuttingDown ==> Get(r, g).pendingMessages)
  {
  }
}
