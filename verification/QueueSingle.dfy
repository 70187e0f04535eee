/** When a group gets a second run: exactly when a drain of the list starts a group that is busy. */
module QueueSingle {
  import opened Basics
  import opened QueueState
  import opened QueueSteps
  import opened QueueInvariants
  import opened QueueOneRun
  import opened QueueDrain
  import opened QueueCapacity

  /** At most one run per group, matching its phase, and no error logged. */
  ghost predicate Single(s: Queue) {
    (forall g :: Matched(s, g)) && !s.reported
  }

  /** Nothing about the group differs. */
  ghost predicate SameGroup(s: Queue, r: Queue, g: Jid) {
    && Get(r, g) == Get(s, g)
    && (forall run :: r.msgRuns[(g, run)] == s.msgRuns[(g, run)])
    && (forall t :: r.taskRuns[(g, t)] == s.taskRuns[(g, t)])
  }

  ghost predicate OnlyOf(s: Queue, r: Queue, g: Jid) {
    forall h :: h != g ==> SameGroup(s, r, h)
  }

  lemma SameMatched(s: Queue, r: Queue, g: Jid)
    requires SameGroup(s, r, g)
    ensures Matched(r, g) == Matched(s, g)
  {
  }

  lemma OneGroupSingle(s: Queue, r: Queue, g: Jid)
    requires Single(s) && OnlyOf(s, r, g) && Matched(r, g) && !r.reported
    ensures Single(r)
  {
    forall h | h != g ensures Matched(r, h) {
      SameMatched(s, r, h);
    }
  }

  // ---- single starts and ends

  lemma StartMessagesOf(s: Queue, g: Jid)
    requires Matched(s, g)
    ensures var r := StartMessages(s, g);
            && OnlyOf(s, r, g)
            && (Matched(r, g) <==> Get(s, g).runPhase == Idle)
            && (Get(s, g).runPhase == Idle ==> r.reported == s.reported)
  {
    var r, st := StartMessages(s, g), Get(s, g);
    assert r.msgRuns[(g, s.nextRun)] > s.msgRuns[(g, s.nextRun)];
    match st.runPhase
    case Idle =>
    case RunningTask => assert r.taskRuns[(g, st.runningTaskId.value)] == 1;
    case _ => assert r.msgRuns[(g, st.currentRunId.value)] >= 1;
  }

  lemma StartTaskOf(s: Queue, g: Jid, t: TaskId)
    requires Matched(s, g)
    ensures var r := StartTask(s, g, t);
            && OnlyOf(s, r, g)
            && (Matched(r, g) <==> Get(s, g).runPhase == Idle)
            && (Get(s, g).runPhase == Idle ==> r.reported == s.reported)
  {
    var r, st := StartTask(s, g, t), Get(s, g);
    assert r.taskRuns[(g, t)] > s.taskRuns[(g, t)];
    match st.runPhase
    case Idle =>
    case RunningTask => assert r.taskRuns[(g, st.runningTaskId.value)] >= 1;
    case _ => assert r.msgRuns[(g, st.currentRunId.value)] == 1;
  }

  lemma StartQueuedOf(s: Queue, g: Jid)
    requires Matched(s, g) && Get(s, g).pendingTasks != []
    ensures var r := StartQueued(s, g);
            && OnlyOf(s, r, g)
            && (Matched(r, g) <==> Get(s, g).runPhase == Idle)
            && (Get(s, g).runPhase == Idle ==> r.reported == s.reported)
  {
    hide StartTask;
    var st := Get(s, g);
    var s1 := Put(s, g, st.(pendingTasks := st.pendingTasks[1..], shifted := st.shifted + [st.pendingTasks[0]]));
    assert Matched(s1, g);
    StartTaskOf(s1, g, st.pendingTasks[0]);
    forall h | h != g ensures SameGroup(s, StartQueued(s, g), h) {
      assert SameGroup(s1, StartQueued(s, g), h) && SameGroup(s, s1, h);
    }
  }

  lemma EndMessagesSingle(s: Queue, g: Jid, run: RunId)
    requires Single(s) && (g, run) in s.msgRuns
    ensures Single(EndMessages(s, g, run)) && Get(EndMessages(s, g, run), g).runPhase == Idle
  {
    assert Matched(s, g) && s.msgRuns[(g, run)] > 0;
    OneGroupSingle(s, EndMessages(s, g, run), g);
  }

  lemma EndTaskSingle(s: Queue, g: Jid, t: TaskId)
    requires Single(s) && (g, t) in s.taskRuns
    ensures Single(EndTask(s, g, t)) && Get(EndTask(s, g, t), g).runPhase == Idle
  {
    assert Matched(s, g) && s.taskRuns[(g, t)] > 0;
    OneGroupSingle(s, EndTask(s, g, t), g);
  }

  lemma PutSingle(s: Queue, g: Jid, st: Group)
    requires Single(s)
    requires var o := Get(s, g);
             && st.currentRunId == o.currentRunId && st.runningTaskId == o.runningTaskId
             && (st.runPhase == o.runPhase || (o.runPhase == RunningMessages && st.runPhase == ClosingMessages))
    ensures Single(Put(s, g, st))
  {
    assert Matched(s, g);
    OneGroupSingle(s, Put(s, g, st), g);
  }

  /** Lists, modes, accepted tasks and counters do not matter. */
  lemma SameRunsSingle(s: Queue, r: Queue)
    requires Single(s) && r == s.(waiting := r.waiting, handler := r.handler, recoveryMode := r.recoveryMode,
                                  accepted := r.accepted)
    ensures Single(r)
  {
    forall g ensures Matched(r, g) {
      SameMatched(s, r, g);
    }
  }

  // ---- draining

  predicate AllIdle(s: Queue, gs: seq<Jid>) {
    forall h :: h in gs ==> Get(s, h).runPhase == Idle
  }

  lemma RestIdle(s: Queue, s1: Queue, gs: seq<Jid>)
    requires gs != [] && gs[0] !in gs[1..] && OnlyOf(s, s1, gs[0]) && Get(s, gs[0]).runPhase == Idle
    ensures AllIdle(s, gs) <==> AllIdle(s1, gs[1..])
    ensures forall h :: h in gs[1..] ==> h in gs && Get(s1, h) == Get(s, h)
  {
    forall h | h in gs[1..] ensures h in gs && Get(s1, h) == Get(s, h) {
      assert SameGroup(s, s1, h);
    }
    assert forall h :: h in gs ==> h == gs[0] || h in gs[1..];
  }

  lemma {:induction false} StartEachSame(s: Queue, gs: seq<Jid>, h: Jid)
    requires h !in gs
    ensures SameGroup(s, StartEach(s, gs), h)
    decreases |gs|
  {
    hide AssertReports, TransitionReports;
    if gs != [] {
      StartEachSame(StartMessages(s, gs[0]), gs[1..], h);
    }
  }

  lemma {:induction false} StartEachQueuedSame(s: Queue, gs: seq<Jid>, h: Jid)
    requires h !in gs
    ensures SameGroup(s, StartEachQueued(s, gs), h)
    decreases |gs|
  {
    hide AssertReports, TransitionReports;
    if gs != [] {
      if |Get(s, gs[0]).pendingTasks| == 0 {
        StartEachQueuedSame(s, gs[1..], h);
      } else {
        StartEachQueuedSame(StartQueued(s, gs[0]), gs[1..], h);
      }
    }
  }

  lemma {:induction false} StartEachSingle(s: Queue, gs: seq<Jid>)
    requires Single(s) && NoDuplicates(gs)
    ensures Single(StartEach(s, gs)) <==> AllIdle(s, gs)
    ensures !AllIdle(s, gs) ==> exists h :: h in gs && !Matched(StartEach(s, gs), h)
    decreases |gs|
  {
    hide Matched, StartMessages;
    if gs != [] {
      DistinctTail(gs);
      var s1 := StartMessages(s, gs[0]);
      StartMessagesOf(s, gs[0]);
      if Get(s, gs[0]).runPhase == Idle {
        OneGroupSingle(s, s1, gs[0]);
        StartEachSingle(s1, gs[1..]);
        RestIdle(s, s1, gs);
      } else {
        StartEachSame(s1, gs[1..], gs[0]);
        SameMatched(s1, StartEach(s, gs), gs[0]);
        assert gs[0] in gs;
      }
    }
  }

  lemma {:induction false} StartEachQueuedSingle(s: Queue, gs: seq<Jid>)
    requires Single(s) && NoDuplicates(gs)
    requires forall h :: h in gs ==> |Get(s, h).pendingTasks| > 0
    ensures Single(StartEachQueued(s, gs)) <==> AllIdle(s, gs)
    decreases |gs|
  {
    hide Matched, StartQueued;
    if gs != [] {
      DistinctTail(gs);
      assert gs[0] in gs;
      var s1 := StartQueued(s, gs[0]);
      StartQueuedOf(s, gs[0]);
      if Get(s, gs[0]).runPhase == Idle {
        OneGroupSingle(s, s1, gs[0]);
        RestIdle(s, s1, gs);
        StartEachQueuedSingle(s1, gs[1..]);
      } else {
        StartEachQueuedSame(s1, gs[1..], gs[0]);
        SameMatched(s1, StartEachQueued(s, gs), gs[0]);
      }
    }
  }

  /** A drain keeps one run per group exactly when it starts idle groups only. */
  lemma DrainSingle(c: Limits, s: Queue)
    requires s.handler && NoDuplicates(s.waiting) && Single(s)
    ensures Single(DrainWaiting(c, s)) <==> AllIdle(s, StartedMessages(c, s) + StartedTasks(c, s))
  {
    hide Matched, StartedMessages, StartedTasks, Left, DrainWaiting;
    DrainClosedForm(c, s);
    StartedLists(c, s);
    var ms, ts := StartedMessages(c, s), StartedTasks(c, s);
    var s1 := s.(waiting := Left(c, s));
    var s2 := StartEach(s1, ms);
    SameRunsSingle(s, s1);
    StartEachSingle(s1, ms);
    forall h | h in ts ensures Get(s2, h) == Get(s, h) {
      StartEachSame(s1, ms, h);
    }
    if AllIdle(s, ms) {
      StartEachQueuedSingle(s2, ts);
      assert AllIdle(s2, ts) <==> AllIdle(s, ts);
    } else {
      assert !AllIdle(s1, ms);
      var h :| h in ms && !Matched(s2, h);
      StartEachQueuedSame(s2, ts, h);
      SameMatched(s2, StartEachQueued(s2, ts), h);
    }
  }

  // ---- events

  /** The block drains the list into a group that is busy. */
  ghost predicate DrainsIntoBusy(c: Limits, s: Queue, e: Event) {
    var d := AboutToDrain(s, e);
    d.Some? && !AllIdle(d.value, StartedMessages(c, d.value) + StartedTasks(c, d.value))
  }

  /** The end of a run of g, which is idle by then. */
  lemma DrainGroupSingle(c: Limits, s: Queue, g: Jid)
    requires s.handler && NoDuplicates(s.waiting) && Single(s) && Get(s, g).runPhase == Idle
    ensures var d := GoesOnToDrain(s, g);
            Single(DrainGroup(c, s, g))
            <==> (d.Some? ==> AllIdle(s, StartedMessages(c, s) + StartedTasks(c, s)))
  {
    hide Matched, DrainGroup, StartMessages, StartQueued, StartedMessages, StartedTasks;
    DrainGroupGoesOn(c, s, g);
    assert Matched(s, g);
    if s.shuttingDown {
    } else if Get(s, g).pendingTasks != [] {
      StartQueuedOf(s, g);
      OneGroupSingle(s, StartQueued(s, g), g);
    } else if Get(s, g).pendingMessages {
      StartMessagesOf(s, g);
      OneGroupSingle(s, StartMessages(s, g), g);
    } else {
      DrainSingle(c, s);
    }
  }

  lemma CheckMessagesSingle(c: Limits, s: Queue, g: Jid, now: int)
    requires Single(s)
    ensures Single(CheckMessages(c, s, g, now))
  {
    hide Matched, StartMessages;
    PutSingle(s, g, Get(s, g).(pendingMessages := true));
    SameRunsSingle(MarkPending(s, g), List(MarkPending(s, g), g));
    assert Matched(s, g);
    StartMessagesOf(s, g);
    if Get(s, g).runPhase == Idle {
      OneGroupSingle(s, StartMessages(s, g), g);
    }
  }

  lemma MessageCheckSingle(c: Limits, s: Queue, g: Jid, ipcDir: bool, now: int)
    requires Single(s)
    ensures Single(OnMessageCheck(c, s, g, ipcDir, now))
  {
    hide Matched, CheckMessages;
    PutSingle(s, g, Get(s, g).(hasIpcDir := Get(s, g).hasIpcDir || ipcDir));
    CheckMessagesSingle(c, NoteIpc(s, g, ipcDir), g, now);
  }

  lemma RetryFiresSingle(c: Limits, s: Queue, g: Jid, now: int)
    requires Single(s)
    ensures Single(OnRetryFires(c, s, g, now))
  {
    hide Matched, OnMessageCheck;
    var st := Get(s, g).(retryTimer := false, retryScheduledAt := None);
    PutSingle(s, g, st);
    MessageCheckSingle(c, Put(s, g, st), g, false, now);
  }

  lemma TaskRequestSingle(c: Limits, s: Queue, g: Jid, t: TaskId)
    requires Single(s)
    ensures Single(OnTaskRequest(c, s, g, t))
  {
    hide Single, QueueTask, Accept;
    PutSingle(s, g, Get(s, g));
    AcceptSingle(Touch(s, g), g, t);
    QueueTaskSingle(c, Accept(Touch(s, g), g, t), g, t);
  }

  lemma AcceptSingle(s: Queue, g: Jid, t: TaskId)
    requires Single(s)
    ensures Single(Accept(s, g, t))
  {
    hide Single;
    SameRunsSingle(s, Accept(s, g, t));
  }

  lemma QueueTaskSingle(c: Limits, s: Queue, g: Jid, t: TaskId)
    requires Single(s)
    ensures Single(QueueTask(c, s, g, t))
  {
    hide Matched, StartTask;
    var st := Get(s, g);
    PutSingle(s, g, st.(pendingTasks := st.pendingTasks + [t], pushed := st.pushed + [t]));
    SameRunsSingle(Push(s, g, t), List(Push(s, g, t), g));
    assert Matched(s, g);
    StartTaskOf(s, g, t);
    if st.runPhase == Idle {
      OneGroupSingle(s, StartTask(s, g, t), g);
    }
  }

  lemma CloseStdinSingle(s: Queue, g: Jid)
    requires Single(s)
    ensures Single(OnCloseStdin(s, g))
  {
    PutSingle(s, g, Get(s, g));
    var s1 := Touch(s, g);
    assert Matched(s1, g);
    PutSingle(s1, g, CloseGroup(Get(s1, g)));
    assert OnCloseStdin(s, g) == Put(s1, g, CloseGroup(Get(s1, g)));
  }

  lemma RegisterProcessSingle(s: Queue, g: Jid, ipcDir: bool)
    requires Single(s)
    ensures Single(OnRegisterProcess(s, g, ipcDir))
  {
    hide Matched;
    PutSingle(s, g, Get(s, g));
    var st := Get(s, g);
    PutSingle(Touch(s, g), g, st.(hasProcess := true, hasIpcDir := st.hasIpcDir || ipcDir));
  }

  lemma ShutdownSingle(s: Queue)
    requires Single(s)
    ensures Single(OnShutdown(s))
  {
    var r := OnShutdown(s);
    forall g ensures Matched(r, g) && !ShutdownReports(Get(s, g)) {
      assert Matched(s, g);
    }
    forall g | g in s.groups ensures !ShutdownReports(s.groups[g]) {
      assert !ShutdownReports(Get(s, g));
    }
  }

  lemma EndedSingle(s: Queue, g: Jid, run: RunId, outcome: Outcome, now: int)
    requires Single(s) && (g, run) in s.msgRuns
    ensures var r := Ended(s, g, run, outcome, now);
            Single(r) && Get(r, g).runPhase == Idle && r.waiting == s.waiting && r.handler == s.handler
  {
    hide Matched, AssertReports, TransitionReports;
    var st := AfterOutcome(Get(s, g), outcome, now);
    PutSingle(s, g, st);
    EndMessagesSingle(Put(s, g, st), g, run);
  }

  /** One run per group, with matching phase and silent checks, survives a block exactly when the block
      does not drain the list into a busy group. */
  lemma SingleRunStep(c: Limits, s: Queue, e: Event)
    requires Single(s) && NoDuplicates(s.waiting) && Enabled(s, e) && (s.handler || e.SetHandler?)
    ensures Single(Step(c, s, e)) <==> !DrainsIntoBusy(c, s, e)
  {
    hide Single, DrainWaiting, DrainGroup, AllIdle, StartedMessages, StartedTasks, OnMessageCheck, OnTaskRequest,
         OnRetryFires, OnRegisterProcess, OnCloseStdin, OnShutdown, EndTask, Ended;
    match e
    case SetHandler =>
      SameRunsSingle(s, s.(handler := true));
      DrainSingle(c, s.(handler := true));
    case RecoveryEnds =>
      SameRunsSingle(s, s.(recoveryMode := false));
      DrainSingle(c, s.(recoveryMode := false));
    case EnterRecovery => SameRunsSingle(s, s.(recoveryMode := true));
    case MessageCheck(g, ipcDir, now) => MessageCheckSingle(c, s, g, ipcDir, now);
    case TaskRequest(g, t) => TaskRequestSingle(c, s, g, t);
    case RegisterProcess(g, ipcDir) => RegisterProcessSingle(s, g, ipcDir);
    case CloseStdin(g) => CloseStdinSingle(s, g);
    case MessageRunEnds(g, run, outcome, now) =>
      EndedSingle(s, g, run, outcome, now);
      DrainGroupSingle(c, Ended(s, g, run, outcome, now), g);
    case TaskRunEnds(g, t) =>
      EndTaskSingle(s, g, t);
      TaskEndKeepsList(s, g, t);
      DrainGroupSingle(c, EndTask(s, g, t), g);
    case RetryFires(g, now) => RetryFiresSingle(c, s, g, now);
    case Shutdown => ShutdownSingle(s);
  }

  lemma TaskEndKeepsList(s: Queue, g: Jid, t: TaskId)
    ensures EndTask(s, g, t).waiting == s.waiting && EndTask(s, g, t).handler == s.handler
  {
  }

  // ---- histories

  /** No block of the history drains the list into a busy group. */
  ghost predicate NeverDrainsIntoBusy(c: Limits, es: seq<Event>)
    decreases |es|
  {
    es == [] ||
    var p := Exec(c, EMPTY_QUEUE, es[..|es| - 1]);
    var e := es[|es| - 1];
    NeverDrainsIntoBusy(c, es[..|es| - 1]) && (Enabled(p, e) ==> !DrainsIntoBusy(c, p, e))
  }

  /** After every block of the history, one run per group. */
  ghost predicate AlwaysSingle(c: Limits, es: seq<Event>)
    decreases |es|
  {
    Single(Exec(c, EMPTY_QUEUE, es)) && (es == [] || AlwaysSingle(c, es[..|es| - 1]))
  }

  /** No task is requested before the handler is installed. */
  ghost predicate TasksAfterHandler(es: seq<Event>)
    decreases |es|
  {
    es == []
    || (TasksAfterHandler(es[..|es| - 1]) && (es[|es| - 1].TaskRequest? ==> SetHandler in es[..|es| - 1]))
  }

  lemma {:induction false} HandlerStays(c: Limits, es: seq<Event>)
    requires SetHandler in es
    ensures Exec(c, EMPTY_QUEUE, es).handler
    decreases |es|
  {
    hide AssertReports, TransitionReports, DrainWaiting;
    var before, e := es[..|es| - 1], es[|es| - 1];
    var p := Exec(c, EMPTY_QUEUE, before);
    if SetHandler in before {
      HandlerStays(c, before);
      if Enabled(p, e) {
        StepKeepsHandler(c, p, e);
      }
    } else {
      assert es == before + [e];
      assert e == SetHandler;
    }
  }

  lemma StepKeepsHandler(c: Limits, s: Queue, e: Event)
    requires s.handler && Enabled(s, e)
    ensures Step(c, s, e).handler
  {
    hide AssertReports, TransitionReports, DrainGroup, DrainWaiting, OnMessageCheck, OnTaskRequest, OnRetryFires;
    match e
    case MessageCheck(g, ipcDir, now) => MessageCheckCounts(c, s, g, ipcDir, now);
    case TaskRequest(g, t) => TaskRequestCounts(c, s, g, t);
    case RetryFires(g, now) => RetryFiresCounts(c, s, g, now);
    case _ =>
  }

  /** Phases change only to idle, and the list stays. */
  ghost predicate Settles(s: Queue, d: Queue) {
    d.waiting == s.waiting && forall h :: Get(d, h).runPhase == Idle || Get(d, h).runPhase == Get(s, h).runPhase
  }

  lemma EndedSettles(s: Queue, g: Jid, run: RunId, outcome: Outcome, now: int)
    ensures Settles(s, Ended(s, g, run, outcome, now))
  {
    hide AssertReports, TransitionReports;
  }

  lemma EndTaskSettles(s: Queue, g: Jid, t: TaskId)
    ensures Settles(s, EndTask(s, g, t))
  {
    hide AssertReports, TransitionReports;
  }

  /** Up to a drain. */
  lemma DrainsTheList(s: Queue, e: Event)
    requires Enabled(s, e) && AboutToDrain(s, e).Some?
    ensures Settles(s, AboutToDrain(s, e).value)
  {
    hide Settles, Ended, EndTask;
    match e
    case SetHandler => ModesSettle(s, s.(handler := true));
    case RecoveryEnds => ModesSettle(s, s.(recoveryMode := false));
    case MessageRunEnds(g, run, outcome, now) => EndedSettles(s, g, run, outcome, now);
    case TaskRunEnds(g, t) => EndTaskSettles(s, g, t);
  }

  lemma ModesSettle(s: Queue, d: Queue)
    requires d.groups == s.groups && d.waiting == s.waiting
    ensures Settles(s, d)
  {
  }

  lemma IdleList(c: Limits, s: Queue)
    requires forall h :: h in s.waiting ==> Get(s, h).runPhase == Idle
    ensures AllIdle(s, StartedMessages(c, s) + StartedTasks(c, s))
  {
    forall h | h in StartedMessages(c, s) + StartedTasks(c, s) ensures h in s.waiting {
      assert h in Messages(s) || h in Tasks(s);
    }
  }

  /** While all listed groups are idle no drain reaches a busy one. */
  lemma OneDrainsIdle(c: Limits, s: Queue, e: Event)
    requires One(s) && Enabled(s, e)
    ensures !DrainsIntoBusy(c, s, e)
  {
    hide Matched, AboutToDrain, AllIdle, Enabled, StartedMessages, StartedTasks;
    if AboutToDrain(s, e).Some? {
      DrainsTheList(s, e);
      IdleList(c, AboutToDrain(s, e).value);
    }
  }

  /** Without a handler and without tasks nothing that is listed is started directly. */
  lemma {:induction false} OneWithoutHandler(c: Limits, es: seq<Event>)
    requires TasksAfterHandler(es) && SetHandler !in es
    ensures var s := Exec(c, EMPTY_QUEUE, es); One(s) && !s.handler
    decreases |es|
  {
    hide One;
    if es == [] {
      EmptyOne();
    } else {
      var before, e := es[..|es| - 1], es[|es| - 1];
      assert e in es && forall x :: x in before ==> x in es;
      OneWithoutHandler(c, before);
      var p := Exec(c, EMPTY_QUEUE, before);
      if Enabled(p, e) {
        NoHandlerStays(c, p, e);
        OneRunStep(c, p, e);
      }
    }
  }

  lemma NoHandlerStays(c: Limits, s: Queue, e: Event)
    requires !s.handler && Enabled(s, e) && e != SetHandler
    ensures !Step(c, s, e).handler
    ensures !e.TaskRequest? ==> !StartsListed(c, s, e)
  {
    hide AssertReports, TransitionReports, DrainGroup, DrainWaiting, OnMessageCheck, OnTaskRequest, OnRetryFires;
    match e
    case MessageCheck(g, ipcDir, now) => MessageCheckCounts(c, s, g, ipcDir, now);
    case TaskRequest(g, t) => TaskRequestCounts(c, s, g, t);
    case RetryFires(g, now) => RetryFiresCounts(c, s, g, now);
    case _ =>
  }

  lemma EmptyOne()
    ensures One(EMPTY_QUEUE)
  {
    assert forall g :: Get(EMPTY_QUEUE, g) == FRESH_GROUP;
  }

  /** Over whole histories in which no task is requested before the handler is installed: one run per group
      throughout exactly when no block drains the list into a busy group. */
  lemma {:induction false} SingleRunPerGroup(c: Limits, es: seq<Event>)
    requires TasksAfterHandler(es)
    ensures AlwaysSingle(c, es) <==> NeverDrainsIntoBusy(c, es)
    decreases |es|
  {
    hide Single, One, DrainsIntoBusy, Enabled, Step;
    if es == [] {
      EmptySingle();
    } else {
      var before, e := es[..|es| - 1], es[|es| - 1];
      SingleRunPerGroup(c, before);
      var p := Exec(c, EMPTY_QUEUE, before);
      if Enabled(p, e) {
        if SetHandler in before || e == SetHandler {
          ReachableInv(c, before);
          if SetHandler in before {
            HandlerStays(c, before);
          }
          if Single(p) {
            SingleRunStep(c, p, e);
          }
        } else {
          assert es == before + [e];
          OneWithoutHandler(c, before);
          OneWithoutHandler(c, es);
          OneDrainsIdle(c, p, e);
          OneIsSingle(Exec(c, EMPTY_QUEUE, es));
        }
      }
    }
  }

  lemma OneIsSingle(s: Queue)
    requires One(s)
    ensures Single(s)
  {
  }

  lemma EmptySingle()
    ensures Single(EMPTY_QUEUE)
  {
    assert forall g :: Get(EMPTY_QUEUE, g) == FRESH_GROUP;
  }
}
