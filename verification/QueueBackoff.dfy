/** When a group's messages are started inside its own backoff: the end of one of its runs, message or
    task, and the draining of the list do not look at the backoff. */
module QueueBackoff {
  import opened Basics
  import opened QueueState
  import opened QueueSteps
  import opened QueueInvariants
  import opened QueueCapacity
  import opened QueueDrain
  import opened QueueTraces

  /** A message run of the group with a number from n on is in flight. */
  ghost predicate NewRun(s: Queue, n: nat, g: Jid) {
    exists run :: run >= n && (g, run) in s.msgRuns
  }

  /** From s to r some group got a message run although its backoff lasts until after now. */
  ghost predicate StartsInBackoff(s: Queue, r: Queue, now: int) {
    exists g :: NewRun(r, s.nextRun, g) && Backoff(Get(r, g), now)
  }

  /** The time the event carries, if it does, is now. */
  predicate At(e: Event, now: int) {
    match e
    case MessageCheck(_, _, t) => t == now
    case MessageRunEnds(_, _, _, t) => t == now
    case RetryFires(_, t) => t == now
    case _ => true
  }

  /** A group in backoff is among those that a drain of d starts. */
  predicate DrainsBackoff(c: Limits, d: Option<Queue>, now: int) {
    d.Some? && exists h :: h in StartedMessages(c, d.value) && Backoff(Get(d.value, h), now)
  }

  /** The group goes on with its own messages at the end of its run. */
  predicate GoesOnWithMessages(s: Queue, st: Group) {
    !s.shuttingDown && st.pendingTasks == [] && st.pendingMessages
  }

  /** The guards of the three ways into a backoff. */
  predicate IgnoresBackoff(c: Limits, s: Queue, e: Event, now: int) {
    || DrainsBackoff(c, AboutToDrain(s, e), now)
    || (match e
        case MessageRunEnds(g, _, outcome, _) =>
          GoesOnWithMessages(s, Get(s, g)) && outcome != Success && Get(s, g).retryCount < MAX_RETRIES
        case TaskRunEnds(g, _) => GoesOnWithMessages(s, Get(s, g)) && Backoff(Get(s, g), now)
        case _ => false)
  }

  // ---- starts

  lemma NoNewRuns(s: Queue, g: Jid)
    requires Inv(s)
    ensures !NewRun(s, s.nextRun, g)
  {
    assert GroupOk(s, g);
    forall run | run >= s.nextRun ensures (g, run) !in s.msgRuns {
      assert s.msgRuns[(g, run)] == 0;
    }
  }

  /** The record's backoff is the same, and so are the new runs. */
  ghost predicate SameBackoff(s: Queue, r: Queue, g: Jid) {
    Get(r, g).retryScheduledAt == Get(s, g).retryScheduledAt
  }

  lemma StartMessagesNew(s: Queue, g: Jid, n: nat, h: Jid)
    requires n <= s.nextRun
    ensures var r := StartMessages(s, g);
            && (NewRun(r, n, h) <==> NewRun(s, n, h) || h == g)
            && SameBackoff(s, r, h) && r.nextRun == s.nextRun + 1
  {
    hide AssertReports, TransitionReports;
    var r := StartMessages(s, g);
    if h == g {
      assert (g, s.nextRun) in r.msgRuns;
    }
    if NewRun(s, n, h) {
      var run :| run >= n && (h, run) in s.msgRuns;
      assert (h, run) in r.msgRuns;
    }
    if NewRun(r, n, h) && h != g {
      var run :| run >= n && (h, run) in r.msgRuns;
      assert (h, run) in s.msgRuns;
    }
  }

  lemma {:induction false} StartEachNew(s: Queue, gs: seq<Jid>, n: nat, h: Jid)
    requires n <= s.nextRun
    ensures var r := StartEach(s, gs);
            (NewRun(r, n, h) <==> NewRun(s, n, h) || h in gs) && SameBackoff(s, r, h)
    decreases |gs|
  {
    hide NewRun, StartMessages;
    if gs != [] {
      StartMessagesNew(s, gs[0], n, h);
      StartEachNew(StartMessages(s, gs[0]), gs[1..], n, h);
      assert h in gs <==> h == gs[0] || h in gs[1..];
    }
  }

  lemma {:induction false} StartEachQueuedNew(s: Queue, gs: seq<Jid>, n: nat, h: Jid)
    ensures var r := StartEachQueued(s, gs);
            (NewRun(r, n, h) <==> NewRun(s, n, h)) && SameBackoff(s, r, h)
    decreases |gs|
  {
    hide NewRun, StartQueued;
    if gs != [] {
      if |Get(s, gs[0]).pendingTasks| == 0 {
        StartEachQueuedNew(s, gs[1..], n, h);
      } else {
        StartQueuedNew(s, gs[0], n, h);
        StartEachQueuedNew(StartQueued(s, gs[0]), gs[1..], n, h);
      }
    }
  }

  lemma StartQueuedNew(s: Queue, g: Jid, n: nat, h: Jid)
    requires Get(s, g).pendingTasks != []
    ensures var r := StartQueued(s, g);
            (NewRun(r, n, h) <==> NewRun(s, n, h)) && SameBackoff(s, r, h)
  {
    hide AssertReports, TransitionReports;
    assert StartQueued(s, g).msgRuns == s.msgRuns;
  }

  lemma DrainNew(c: Limits, s: Queue, n: nat, h: Jid)
    requires s.handler && NoDuplicates(s.waiting) && n <= s.nextRun
    ensures var r := DrainWaiting(c, s);
            (NewRun(r, n, h) <==> NewRun(s, n, h) || h in StartedMessages(c, s)) && SameBackoff(s, r, h)
  {
    hide NewRun, DrainWaiting, StartedMessages, StartedTasks, Left;
    DrainClosedForm(c, s);
    var s1 := s.(waiting := Left(c, s));
    SameRunsNew(s, s1, n, h);
    StartEachNew(s1, StartedMessages(c, s), n, h);
    StartEachQueuedNew(StartEach(s1, StartedMessages(c, s)), StartedTasks(c, s), n, h);
  }

  lemma SameRunsNew(s: Queue, r: Queue, n: nat, h: Jid)
    requires r.msgRuns <= s.msgRuns
    ensures NewRun(r, n, h) ==> NewRun(s, n, h)
    ensures r.msgRuns == s.msgRuns ==> NewRun(r, n, h) == NewRun(s, n, h)
  {
    if NewRun(r, n, h) {
      var run :| run >= n && (h, run) in r.msgRuns;
      assert (h, run) in s.msgRuns;
    }
  }

  // ---- parts of a block

  /** A drain of s, which has no new runs since n. */
  lemma DrainBackoff(c: Limits, s0: Queue, s: Queue, now: int)
    requires s.handler && NoDuplicates(s.waiting) && s0.nextRun == s.nextRun
    requires forall h :: !NewRun(s, s0.nextRun, h)
    ensures StartsInBackoff(s0, DrainWaiting(c, s), now) <==> DrainsBackoff(c, Some(s), now)
  {
    hide NewRun, DrainWaiting, StartedMessages;
    var r := DrainWaiting(c, s);
    forall h ensures NewRun(r, s0.nextRun, h) <==> h in StartedMessages(c, s)
             ensures Backoff(Get(r, h), now) == Backoff(Get(s, h), now) {
      DrainNew(c, s, s0.nextRun, h);
    }
    if DrainsBackoff(c, Some(s), now) {
      var h :| h in StartedMessages(c, s) && Backoff(Get(s, h), now);
      assert NewRun(r, s0.nextRun, h) && Backoff(Get(r, h), now);
    }
  }

  /** One message start from a state without new runs. */
  lemma StartBackoff(s0: Queue, s: Queue, g: Jid, now: int)
    requires s0.nextRun == s.nextRun && forall h :: !NewRun(s, s0.nextRun, h)
    ensures StartsInBackoff(s0, StartMessages(s, g), now) <==> Backoff(Get(s, g), now)
  {
    hide NewRun, StartMessages;
    var r := StartMessages(s, g);
    forall h ensures NewRun(r, s0.nextRun, h) <==> h == g
             ensures Backoff(Get(r, h), now) == Backoff(Get(s, h), now) {
      StartMessagesNew(s, g, s0.nextRun, h);
    }
    if Backoff(Get(s, g), now) {
      assert NewRun(r, s0.nextRun, g);
    }
  }

  /** No message start at all. */
  lemma NoStart(s0: Queue, r: Queue, now: int)
    requires Inv(s0) && r.msgRuns <= s0.msgRuns
    ensures !StartsInBackoff(s0, r, now)
  {
    forall h ensures !NewRun(r, s0.nextRun, h) {
      NoNewRuns(s0, h);
      SameRunsNew(s0, r, s0.nextRun, h);
    }
  }

  /** After a run of g has ended, in the state s. */
  lemma DrainGroupBackoff(c: Limits, s0: Queue, s: Queue, g: Jid, now: int)
    requires Inv(s0) && s.handler && NoDuplicates(s.waiting) && s0.nextRun == s.nextRun
    requires s.msgRuns <= s0.msgRuns
    ensures StartsInBackoff(s0, DrainGroup(c, s, g), now)
            <==> || DrainsBackoff(c, GoesOnToDrain(s, g), now)
                 || (GoesOnWithMessages(s, Get(s, g)) && Backoff(Get(s, g), now))
  {
    hide NewRun, DrainGroup, DrainWaiting, StartMessages, StartQueued, StartsInBackoff, DrainsBackoff, Inv;
    DrainGroupGoesOn(c, s, g);
    forall h ensures !NewRun(s, s0.nextRun, h) {
      NoNewRuns(s0, h);
      SameRunsNew(s0, s, s0.nextRun, h);
    }
    NothingDrained(c, now);
    if s.shuttingDown {
      NoStart(s0, s, now);
    } else if Get(s, g).pendingTasks != [] {
      QueuedStartsNoMessages(s, g);
      NoStart(s0, StartQueued(s, g), now);
    } else if Get(s, g).pendingMessages {
      StartBackoff(s0, s, g, now);
    } else {
      DrainBackoff(c, s0, s, now);
    }
  }

  lemma NothingDrained(c: Limits, now: int)
    ensures !DrainsBackoff(c, None, now)
  {
  }

  lemma QueuedStartsNoMessages(s: Queue, g: Jid)
    requires Get(s, g).pendingTasks != []
    ensures StartQueued(s, g).msgRuns == s.msgRuns
  {
    hide AssertReports, TransitionReports;
  }

  // ---- events

  lemma MessageRunEndsBackoff(c: Limits, s: Queue, g: Jid, run: RunId, outcome: Outcome, now: int)
    requires Inv(s) && s.handler
    ensures StartsInBackoff(s, OnMessageRunEnds(c, s, g, run, outcome, now), now)
            <==> IgnoresBackoff(c, s, MessageRunEnds(g, run, outcome, now), now)
  {
    hide StartsInBackoff, DrainsBackoff, DrainGroup, Inv, GoesOnToDrain, Ended;
    var d := Ended(s, g, run, outcome, now);
    EndedFacts(s, g, run, outcome, now);
    DrainGroupBackoff(c, s, d, g, now);
  }

  lemma EndedFacts(s: Queue, g: Jid, run: RunId, outcome: Outcome, now: int)
    requires Inv(s)
    ensures var d, st := Ended(s, g, run, outcome, now), Get(s, g);
            && d.handler == s.handler && d.shuttingDown == s.shuttingDown && d.nextRun == s.nextRun
            && NoDuplicates(d.waiting) && d.msgRuns <= s.msgRuns
            && Get(d, g).pendingTasks == st.pendingTasks && Get(d, g).pendingMessages == st.pendingMessages
            && (Backoff(Get(d, g), now) <==> outcome != Success && st.retryCount < MAX_RETRIES)
  {
    hide AssertReports, TransitionReports;
    Pow2Positive(Get(s, g).retryCount);
  }

  lemma TaskRunEndsBackoff(c: Limits, s: Queue, g: Jid, t: TaskId, now: int)
    requires Inv(s) && s.handler
    ensures StartsInBackoff(s, OnTaskRunEnds(c, s, g, t), now)
            <==> IgnoresBackoff(c, s, TaskRunEnds(g, t), now)
  {
    hide StartsInBackoff, DrainsBackoff, DrainGroup, Inv, GoesOnToDrain, EndTask;
    EndTaskFacts(s, g, t, now);
    DrainGroupBackoff(c, s, EndTask(s, g, t), g, now);
  }

  lemma EndTaskFacts(s: Queue, g: Jid, t: TaskId, now: int)
    requires Inv(s)
    ensures var d, st := EndTask(s, g, t), Get(s, g);
            && d.handler == s.handler && d.shuttingDown == s.shuttingDown && d.nextRun == s.nextRun
            && NoDuplicates(d.waiting) && d.msgRuns == s.msgRuns
            && Get(d, g).pendingTasks == st.pendingTasks && Get(d, g).pendingMessages == st.pendingMessages
            && Backoff(Get(d, g), now) == Backoff(st, now)
  {
    hide AssertReports, TransitionReports;
  }

  /** Message checks respect the backoff, also those of an expired retry timer, which has none. */
  lemma CheckBackoff(c: Limits, s0: Queue, s: Queue, g: Jid, ipcDir: bool, now: int)
    requires Inv(s0) && s.handler && s.msgRuns == s0.msgRuns && s.nextRun == s0.nextRun
    ensures !StartsInBackoff(s0, OnMessageCheck(c, s, g, ipcDir, now), now)
  {
    hide NewRun, StartMessages, StartsInBackoff, Inv, Backoff;
    forall h ensures !NewRun(s, s0.nextRun, h) {
      NoNewRuns(s0, h);
      SameRunsNew(s0, s, s0.nextRun, h);
    }
    var n := NoteIpc(s, g, ipcDir);
    forall h ensures !NewRun(n, s0.nextRun, h) {
      SameRunsNew(s, n, s0.nextRun, h);
    }
    StartBackoff(s0, n, g, now);
    NoStart(s0, s, now);
    NoStart(s0, MarkPending(n, g), now);
    NoStart(s0, List(MarkPending(n, g), g), now);
  }

  lemma DrainEventBackoff(c: Limits, s: Queue, d: Queue, now: int)
    requires Inv(s) && d.handler && d == s.(handler := d.handler, recoveryMode := d.recoveryMode)
    ensures StartsInBackoff(s, DrainWaiting(c, d), now) <==> DrainsBackoff(c, Some(d), now)
  {
    hide NewRun, DrainWaiting, DrainsBackoff, StartsInBackoff;
    forall h ensures !NewRun(d, s.nextRun, h) {
      NoNewRuns(s, h);
      SameRunsNew(s, d, s.nextRun, h);
    }
    DrainBackoff(c, s, d, now);
  }

  lemma RecordsStartNothing(c: Limits, s: Queue, e: Event)
    requires Enabled(s, e)
    requires e.EnterRecovery? || e.TaskRequest? || e.RegisterProcess? || e.CloseStdin? || e.Shutdown?
    ensures Step(c, s, e).msgRuns == s.msgRuns
  {
    hide AssertReports, TransitionReports;
  }

  lemma HandledBackoff(c: Limits, s: Queue, e: Event, now: int)
    requires Inv(s) && Enabled(s, e) && At(e, now) && (s.handler || e.SetHandler?)
    ensures StartsInBackoff(s, Step(c, s, e), now) <==> IgnoresBackoff(c, s, e, now)
  {
    hide StartsInBackoff, DrainsBackoff, DrainWaiting, DrainGroup, Inv, OnMessageCheck, OnTaskRequest, OnShutdown,
         OnRegisterProcess, OnCloseStdin, OnMessageRunEnds, OnTaskRunEnds;
    NothingDrained(c, now);
    match e
    case SetHandler => DrainEventBackoff(c, s, s.(handler := true), now);
    case RecoveryEnds => DrainEventBackoff(c, s, s.(recoveryMode := false), now);
    case MessageCheck(g, ipcDir, _) => CheckBackoff(c, s, s, g, ipcDir, now);
    case RetryFires(g, _) =>
      var s1 := Put(s, g, Get(s, g).(retryTimer := false, retryScheduledAt := None));
      NoStart(s, s1, now);
      CheckBackoff(c, s, s1, g, false, now);
    case MessageRunEnds(g, run, outcome, _) => MessageRunEndsBackoff(c, s, g, run, outcome, now);
    case TaskRunEnds(g, t) => TaskRunEndsBackoff(c, s, g, t, now);
    case _ =>
      RecordsStartNothing(c, s, e);
      NoStart(s, Step(c, s, e), now);
  }

  /** Without a handler no block leaves a message run in flight that was not there before. */
  lemma UnhandledStartsNothing(c: Limits, s: Queue, e: Event)
    requires !s.handler && !e.SetHandler? && Enabled(s, e)
    ensures Step(c, s, e).msgRuns <= s.msgRuns
  {
    hide AssertReports, TransitionReports, DrainWaiting, DrainGroup, OnTaskRequest, OnShutdown, OnRegisterProcess,
         OnCloseStdin, Ended, EndTask;
    match e
    case RecoveryEnds => DrainingWithoutHandler(c, s.(recoveryMode := false));
    case MessageCheck(_, _, _) =>
    case RetryFires(_, _) =>
    case MessageRunEnds(g, run, outcome, now) =>
      EndedLeavesNothing(s, g, run, outcome, now);
      UnhandledRunEnds(c, Ended(s, g, run, outcome, now), g);
    case TaskRunEnds(g, t) =>
      EndTaskLeavesNothing(s, g, t);
      UnhandledRunEnds(c, EndTask(s, g, t), g);
    case _ => RecordsStartNothing(c, s, e);
  }

  lemma EndedLeavesNothing(s: Queue, g: Jid, run: RunId, outcome: Outcome, now: int)
    ensures var d := Ended(s, g, run, outcome, now); d.msgRuns <= s.msgRuns && d.handler == s.handler
  {
    hide AssertReports, TransitionReports;
  }

  lemma EndTaskLeavesNothing(s: Queue, g: Jid, t: TaskId)
    ensures var d := EndTask(s, g, t); d.msgRuns == s.msgRuns && d.handler == s.handler
  {
    hide AssertReports, TransitionReports;
  }

  lemma UnhandledRunEnds(c: Limits, s: Queue, g: Jid)
    requires !s.handler
    ensures DrainGroup(c, s, g).msgRuns == s.msgRuns
  {
    hide RunForGroup, DrainWaiting, StartQueued;
    if s.shuttingDown {
    } else if Get(s, g).pendingTasks != [] {
      QueuedStartsNoMessages(s, g);
    } else if Get(s, g).pendingMessages {
      RunWithoutAnyHandler(c, s, g);
    } else {
      DrainingWithoutHandler(c, s);
    }
  }

  /** A block starts messages of a group inside its backoff exactly when there is a handler and one of three
      guards holds: a message run that failed with retries left ends with messages and no tasks pending; a
      task run ends with messages and no tasks pending while the backoff lasts; or a drain of the list
      reaches a group in backoff. */
  lemma BackoffStep(c: Limits, s: Queue, e: Event, now: int)
    requires Inv(s) && Enabled(s, e) && At(e, now)
    ensures StartsInBackoff(s, Step(c, s, e), now)
            <==> (s.handler || e.SetHandler?) && IgnoresBackoff(c, s, e, now)
  {
    hide StartsInBackoff, IgnoresBackoff, Inv, Step, Enabled;
    if s.handler || e.SetHandler? {
      HandledBackoff(c, s, e, now);
    } else {
      UnhandledStartsNothing(c, s, e);
      NoStart(s, Step(c, s, e), now);
    }
  }

  // ---- the two ways that are not the end of a failed run

  const ONE := Limits(1, 1)
  const FAILED := FRESH_GROUP.(retryCount := 1, retryTimer := true, retryScheduledAt := Some(5000))

  /** What is running, and who is listed, in a queue with a handler. */
  ghost predicate Running(s: Queue, ms: multiset<(Jid, RunId)>, ts: multiset<(Jid, TaskId)>, waiting: seq<Jid>) {
    && s.handler && !s.shuttingDown && !s.recoveryMode && s.waiting == waiting
    && s.msgRuns == ms && s.taskRuns == ts
    && s.activeCount == |ms| + |ts| && s.activeTaskCount == |ts|
  }

  /** The message run of b has failed at time 0, and nothing else has happened. */
  ghost predicate OnlyBFailed(s: Queue) {
    Running(s, multiset{}, multiset{}, []) && s.nextRun == 1 && Get(s, "b") == FAILED && Get(s, "a") == FRESH_GROUP
  }

  lemma BStarts(s: Queue)
    requires s == EMPTY_QUEUE.(handler := true)
    ensures var r := Do(ONE, s, MessageCheck("b", false, 0));
            && Running(r, multiset{("b", 0)}, multiset{}, []) && r.nextRun == 1
            && Get(r, "b") == FRESH_GROUP.(runPhase := RunningMessages, currentRunId := Some(0))
            && Get(r, "a") == FRESH_GROUP
  {
    assert "a"[0] != "b"[0];
  }

  lemma BFails(s: Queue)
    requires Running(s, multiset{("b", 0)}, multiset{}, []) && s.nextRun == 1
    requires Get(s, "b") == FRESH_GROUP.(runPhase := RunningMessages, currentRunId := Some(0))
    requires Get(s, "a") == FRESH_GROUP
    ensures OnlyBFailed(Do(ONE, s, MessageRunEnds("b", 0, Failed, 0)))
  {
    hide AssertReports, TransitionReports, DrainWaiting;
    assert "a"[0] != "b"[0];
    assert Pow2(0) == 1;
    var d := Ended(s, "b", 0, Failed, 0);
    DrainGroupGoesOn(ONE, d, "b");
    DrainNobody(ONE, d);
  }

  lemma Failing() returns (es: seq<Event>)
    ensures OnlyBFailed(Exec(ONE, EMPTY_QUEUE, es))
  {
    Then(ONE, [], SetHandler);
    assert Do(ONE, EMPTY_QUEUE, SetHandler) == EMPTY_QUEUE.(handler := true);
    es := [] + [SetHandler];
    BStarts(Exec(ONE, EMPTY_QUEUE, es));
    Then(ONE, es, MessageCheck("b", false, 0));
    es := es + [MessageCheck("b", false, 0)];
    BFails(Exec(ONE, EMPTY_QUEUE, es));
    Then(ONE, es, MessageRunEnds("b", 0, Failed, 0));
    es := es + [MessageRunEnds("b", 0, Failed, 0)];
  }

  lemma BTakesATask(s: Queue)
    requires OnlyBFailed(s)
    ensures var r := Do(ONE, s, TaskRequest("b", "t"));
            && Running(r, multiset{}, multiset{("b", "t")}, [])
            && Get(r, "b") == FAILED.(runPhase := RunningTask, runningTaskId := Some("t"))
  {
    hide AssertReports, TransitionReports;
  }

  lemma BHearsMore(s: Queue)
    requires Running(s, multiset{}, multiset{("b", "t")}, [])
    requires Get(s, "b") == FAILED.(runPhase := RunningTask, runningTaskId := Some("t"))
    ensures var r := Do(ONE, s, MessageCheck("b", false, 1));
            && Enabled(r, TaskRunEnds("b", "t")) && r.handler
            && IgnoresBackoff(ONE, r, TaskRunEnds("b", "t"), 1)
  {
    hide AssertReports, TransitionReports;
  }

  /** A failed message run, then a task of the same group, during which messages arrive: the end of the
      task starts them at time 1, long before the backoff is over. */
  lemma TaskEndStartsInBackoff() returns (es: seq<Event>)
    ensures var s := Exec(ONE, EMPTY_QUEUE, es);
            Enabled(s, TaskRunEnds("b", "t")) && StartsInBackoff(s, Step(ONE, s, TaskRunEnds("b", "t")), 1)
  {
    hide StartsInBackoff, IgnoresBackoff, Step;
    es := Failing();
    BTakesATask(Exec(ONE, EMPTY_QUEUE, es));
    Then(ONE, es, TaskRequest("b", "t"));
    es := es + [TaskRequest("b", "t")];
    BHearsMore(Exec(ONE, EMPTY_QUEUE, es));
    Then(ONE, es, MessageCheck("b", false, 1));
    es := es + [MessageCheck("b", false, 1)];
    ReachableInv(ONE, es);
    BackoffStep(ONE, Exec(ONE, EMPTY_QUEUE, es), TaskRunEnds("b", "t"), 1);
  }

  lemma ATakesTheSlot(s: Queue)
    requires OnlyBFailed(s)
    ensures var r := Do(ONE, s, MessageCheck("a", false, 0));
            && Running(r, multiset{("a", 1)}, multiset{}, [])
            && Get(r, "b") == FAILED
            && Get(r, "a") == FRESH_GROUP.(runPhase := RunningMessages, currentRunId := Some(1))
  {
    hide AssertReports, TransitionReports;
    assert "a"[0] != "b"[0];
  }

  lemma BIsListedForATask(s: Queue)
    requires Running(s, multiset{("a", 1)}, multiset{}, []) && Get(s, "b") == FAILED
    requires Get(s, "a") == FRESH_GROUP.(runPhase := RunningMessages, currentRunId := Some(1))
    ensures var r := Do(ONE, s, TaskRequest("b", "u"));
            && Running(r, multiset{("a", 1)}, multiset{}, ["b"])
            && Get(r, "b") == FAILED.(pendingTasks := ["u"], pushed := ["u"])
            && Get(r, "a") == Get(s, "a")
  {
    assert "a"[0] != "b"[0];
  }

  lemma BHearsMoreInTheList(s: Queue)
    requires Running(s, multiset{("a", 1)}, multiset{}, ["b"])
    requires Get(s, "b") == FAILED.(pendingTasks := ["u"], pushed := ["u"])
    requires Get(s, "a") == FRESH_GROUP.(runPhase := RunningMessages, currentRunId := Some(1))
    ensures var r := Do(ONE, s, MessageCheck("b", false, 1));
            && Running(r, multiset{("a", 1)}, multiset{}, ["b"])
            && Get(r, "b") == FAILED.(pendingTasks := ["u"], pushed := ["u"], pendingMessages := true)
            && Get(r, "a") == Get(s, "a")
  {
    assert "a"[0] != "b"[0];
  }

  lemma BIsReached(s: Queue)
    requires Running(s, multiset{("a", 1)}, multiset{}, ["b"])
    requires Get(s, "b") == FAILED.(pendingTasks := ["u"], pushed := ["u"], pendingMessages := true)
    requires Get(s, "a") == FRESH_GROUP.(runPhase := RunningMessages, currentRunId := Some(1))
    ensures Enabled(s, MessageRunEnds("a", 1, Success, 1))
    ensures IgnoresBackoff(ONE, s, MessageRunEnds("a", 1, Success, 1), 1)
  {
    hide AssertReports, TransitionReports;
    assert "a"[0] != "b"[0];
    var d := Ended(s, "a", 1, Success, 1);
    assert d.waiting == ["b"] && Get(d, "b") == Get(s, "b") && d.activeCount == 0;
    assert "b" in d.waiting && "b" in Messages(d);
    assert |Messages(d)| == 1 && StartedMessages(ONE, d) == Messages(d);
  }

  /** A group listed for a task slot whose messages arrive during its backoff: the drain starts them. */
  lemma DrainStartsInBackoff() returns (es: seq<Event>)
    ensures var s, e := Exec(ONE, EMPTY_QUEUE, es), MessageRunEnds("a", 1, Success, 1);
            Enabled(s, e) && StartsInBackoff(s, Step(ONE, s, e), 1)
  {
    hide StartsInBackoff, IgnoresBackoff, Step;
    es := Failing();
    ATakesTheSlot(Exec(ONE, EMPTY_QUEUE, es));
    Then(ONE, es, MessageCheck("a", false, 0));
    es := es + [MessageCheck("a", false, 0)];
    BIsListedForATask(Exec(ONE, EMPTY_QUEUE, es));
    Then(ONE, es, TaskRequest("b", "u"));
    es := es + [TaskRequest("b", "u")];
    BHearsMoreInTheList(Exec(ONE, EMPTY_QUEUE, es));
    Then(ONE, es, MessageCheck("b", false, 1));
    es := es + [MessageCheck("b", false, 1)];
    BIsReached(Exec(ONE, EMPTY_QUEUE, es));
    ReachableInv(ONE, es);
    BackoffStep(ONE, Exec(ONE, EMPTY_QUEUE, es), MessageRunEnds("a", 1, Success, 1), 1);
  }
}
