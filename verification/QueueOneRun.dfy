/** One run per group, with all listed groups idle. With tasks this holds exactly as long as no block starts,
    directly, a group that is still listed as waiting; QueueSingle says when one run per group alone does. */
module QueueOneRun {
  import opened Basics
  import opened QueueState
  import opened QueueSteps
  import opened QueueInvariants

  /** The group has exactly the run its phase names, and none when idle. */
  ghost predicate Matched(s: Queue, g: Jid) {
    var st := Get(s, g);
    && (forall r :: s.msgRuns[(g, r)]
                    == if st.runPhase in {RunningMessages, ClosingMessages} && st.currentRunId == Some(r) then 1 else 0)
    && (forall t :: s.taskRuns[(g, t)]
                    == if st.runPhase == RunningTask && st.runningTaskId == Some(t) then 1 else 0)
    && (st.currentRunId.Some? <==> st.runPhase in {RunningMessages, ClosingMessages})
    && (st.runningTaskId.Some? <==> st.runPhase == RunningTask)
  }

  /** At most one run per group, matching its phase; waiting groups are idle; and the phase
      checks have logged no error. */
  ghost predicate One(s: Queue) {
    && NoDuplicates(s.waiting)
    && (forall g :: Matched(s, g))
    && (forall g :: g in s.waiting ==> Get(s, g).runPhase == Idle)
    && !s.reported
  }

  lemma OneGroupMatched(s: Queue, r: Queue, g: Jid)
    requires One(s) && !r.reported && NoDuplicates(r.waiting)
    requires forall h :: h != g ==> Get(r, h) == Get(s, h)
    requires forall p: (Jid, RunId) :: p.0 != g ==> r.msgRuns[p] == s.msgRuns[p]
    requires forall p: (Jid, TaskId) :: p.0 != g ==> r.taskRuns[p] == s.taskRuns[p]
    requires forall h :: h in r.waiting ==> h in s.waiting || h == g
    requires Matched(r, g) && (g in r.waiting ==> Get(r, g).runPhase == Idle)
    ensures One(r)
  {
    forall h | h != g ensures Matched(r, h) {
      assert Matched(s, h);
      forall run ensures r.msgRuns[(h, run)] == s.msgRuns[(h, run)] {
        assert (h, run).0 != g;
      }
      forall t ensures r.taskRuns[(h, t)] == s.taskRuns[(h, t)] {
        assert (h, t).0 != g;
      }
    }
  }

  lemma StartMessagesOne(s: Queue, g: Jid)
    requires One(s) && Get(s, g).runPhase == Idle && g !in s.waiting
    ensures One(StartMessages(s, g))
  {
    assert Matched(s, g);
    OneGroupMatched(s, StartMessages(s, g), g);
  }

  lemma StartTaskOne(s: Queue, g: Jid, t: TaskId)
    requires One(s) && Get(s, g).runPhase == Idle && g !in s.waiting
    ensures One(StartTask(s, g, t))
  {
    assert Matched(s, g);
    OneGroupMatched(s, StartTask(s, g, t), g);
  }

  lemma StartQueuedOne(s: Queue, g: Jid)
    requires One(s) && Get(s, g).runPhase == Idle && g !in s.waiting && |Get(s, g).pendingTasks| > 0
    ensures One(StartQueued(s, g))
  {
    var st := Get(s, g);
    var s1 := Put(s, g, st.(pendingTasks := st.pendingTasks[1..], shifted := st.shifted + [st.pendingTasks[0]]));
    assert Matched(s, g);
    OneGroupMatched(s, s1, g);
    StartTaskOne(s1, g, st.pendingTasks[0]);
  }

  /** Ending a run leaves its group idle and unlisted. */
  lemma EndMessagesOne(s: Queue, g: Jid, run: RunId)
    requires One(s) && (g, run) in s.msgRuns
    ensures var r := EndMessages(s, g, run);
            One(r) && Get(r, g).runPhase == Idle && g !in r.waiting
  {
    assert Matched(s, g);
    assert s.msgRuns[(g, run)] > 0;
    OneGroupMatched(s, EndMessages(s, g, run), g);
  }

  lemma EndTaskOne(s: Queue, g: Jid, t: TaskId)
    requires One(s) && (g, t) in s.taskRuns
    ensures var r := EndTask(s, g, t);
            One(r) && Get(r, g).runPhase == Idle && g !in r.waiting
  {
    assert Matched(s, g);
    assert s.taskRuns[(g, t)] > 0;
    OneGroupMatched(s, EndTask(s, g, t), g);
  }

  lemma UnlistOne(s: Queue, k: nat)
    requires One(s) && k < |s.waiting|
    ensures One(Unlist(s, k)) && s.waiting[k] !in Unlist(s, k).waiting
  {
    assert Matched(s, s.waiting[k]);
    OneGroupMatched(s, Unlist(s, k), s.waiting[k]);
  }

  // ---- draining

  lemma {:induction false} DrainWaitingOne(c: Limits, s: Queue)
    requires One(s)
    ensures One(DrainWaiting(c, s))
    decreases |s.waiting|, 0, 0
  {
    var k := NextIndex(c, s);
    if |s.waiting| > 0 && s.activeCount < EffectiveMax(c, s) && k < |s.waiting| {
      var g := s.waiting[k];
      var s1 := Unlist(s, k);
      UnlistOne(s, k);
      if Get(s1, g).pendingMessages {
        RunForGroupOne(c, s1, g);
        DrainWaitingOne(c, RunForGroup(c, s1, g));
      } else {
        StartQueuedOne(s1, g);
        DrainWaitingOne(c, StartQueued(s1, g));
      }
    }
  }

  lemma {:induction false} RunForGroupOne(c: Limits, s: Queue, g: Jid)
    requires One(s) && Get(s, g).runPhase == Idle && g !in s.waiting
    ensures One(RunForGroup(c, s, g))
    decreases |s.waiting|, 1, 1
  {
    StartMessagesOne(s, g);
    var s1 := StartMessages(s, g);
    if !s.handler {
      assert (g, s.nextRun) in s1.msgRuns;
      EndMessagesOne(s1, g, s.nextRun);
      DrainGroupOne(c, EndMessages(s1, g, s.nextRun), g);
    }
  }

  lemma {:induction false} DrainGroupOne(c: Limits, s: Queue, g: Jid)
    requires One(s) && Get(s, g).runPhase == Idle && g !in s.waiting
    ensures One(DrainGroup(c, s, g))
    decreases |s.waiting|, 1, if Get(s, g).pendingMessages then 2 else 0
  {
    if s.shuttingDown {
    } else if |Get(s, g).pendingTasks| > 0 {
      StartQueuedOne(s, g);
    } else if Get(s, g).pendingMessages {
      RunForGroupOne(c, s, g);
    } else {
      DrainWaitingOne(c, s);
    }
  }

  // ---- events

  predicate MessageStart(c: Limits, s: Queue, g: Jid, now: int) {
    && !s.shuttingDown && s.handler && Get(s, g).runPhase == Idle
    && !Backoff(Get(s, g), now) && s.activeCount < EffectiveMax(c, s)
  }

  predicate TaskStart(c: Limits, s: Queue, g: Jid, t: TaskId) {
    && !s.shuttingDown && Get(s, g).runPhase == Idle
    && !Duplicate(Get(s, g), t)
    && s.activeCount < EffectiveMax(c, s) && s.activeTaskCount < c.MaxTasks()
  }

  /** The event starts its group at once although the group is still in the waiting list:
      the guard a caller can evaluate before the call. */
  predicate StartsListed(c: Limits, s: Queue, e: Event) {
    match e
    case MessageCheck(g, _, now) => g in s.waiting && MessageStart(c, s, g, now)
    case RetryFires(g, now) =>
      g in s.waiting && MessageStart(c, Put(s, g, Get(s, g).(retryScheduledAt := None)), g, now)
    case TaskRequest(g, t) => g in s.waiting && TaskStart(c, s, g, t)
    case _ => false
  }

  /** Changes of a record that keep its runs. */
  lemma PutOne(s: Queue, g: Jid, st: Group)
    requires One(s)
    requires var o := Get(s, g);
             && st.currentRunId == o.currentRunId && st.runningTaskId == o.runningTaskId
             && (st.runPhase == o.runPhase || (o.runPhase == RunningMessages && st.runPhase == ClosingMessages))
    ensures One(Put(s, g, st))
  {
    assert Matched(s, g);
    OneGroupMatched(s, Put(s, g, st), g);
  }

  lemma ListOne(s: Queue, g: Jid)
    requires One(s) && Get(s, g).runPhase == Idle
    ensures One(List(s, g))
  {
    if g !in s.waiting {
      DistinctSnoc(s.waiting, g);
      assert Matched(s, g);
      OneGroupMatched(s, List(s, g), g);
    }
  }

  lemma CheckMessagesOne(c: Limits, s: Queue, g: Jid, now: int)
    requires One(s) && !s.shuttingDown && !(g in s.waiting && MessageStart(c, s, g, now))
    ensures One(CheckMessages(c, s, g, now))
  {
    if MessageStart(c, s, g, now) {
      StartMessagesOne(s, g);
    } else {
      PutOne(s, g, Get(s, g).(pendingMessages := true));
      if Get(s, g).runPhase == Idle {
        ListOne(MarkPending(s, g), g);
      }
    }
  }

  lemma MessageCheckOne(c: Limits, s: Queue, g: Jid, ipcDir: bool, now: int)
    requires One(s) && !(g in s.waiting && MessageStart(c, s, g, now))
    ensures One(OnMessageCheck(c, s, g, ipcDir, now))
  {
    if !s.shuttingDown {
      PutOne(s, g, Get(s, g).(hasIpcDir := Get(s, g).hasIpcDir || ipcDir));
      CheckMessagesOne(c, NoteIpc(s, g, ipcDir), g, now);
    }
  }

  lemma AcceptOne(s: Queue, g: Jid, t: TaskId)
    requires One(s)
    ensures One(Accept(s, g, t))
  {
    assert Matched(s, g);
    OneGroupMatched(s, Accept(s, g, t), g);
  }

  lemma TaskRequestOne(c: Limits, s0: Queue, g: Jid, t: TaskId)
    requires One(s0) && !(g in s0.waiting && TaskStart(c, s0, g, t))
    ensures One(OnTaskRequest(c, s0, g, t))
  {
    PutOne(s0, g, Get(s0, g));
    var s := Touch(s0, g);
    var st := Get(s, g);
    if s0.shuttingDown || Duplicate(st, t) { return; }
    AcceptOne(s, g, t);
    if TaskStart(c, s0, g, t) {
      StartTaskOne(Accept(s, g, t), g, t);
    } else {
      PutOne(Accept(s, g, t), g, st.(pendingTasks := st.pendingTasks + [t], pushed := st.pushed + [t]));
      if st.runPhase == Idle {
        ListOne(Push(Accept(s, g, t), g, t), g);
      }
    }
  }

  lemma ShutdownOne(s: Queue)
    requires One(s)
    ensures One(OnShutdown(s))
  {
    var r := OnShutdown(s);
    forall g ensures Matched(r, g) && !ShutdownReports(Get(s, g)) {
      assert Matched(s, g);
    }
    forall g | g in s.groups ensures !ShutdownReports(s.groups[g]) {
      assert !ShutdownReports(Get(s, g));
    }
  }

  lemma SameRunsOne(s: Queue, r: Queue)
    requires One(s) && r == s.(handler := r.handler, recoveryMode := r.recoveryMode)
    ensures One(r)
  {
    forall g ensures Matched(r, g) {
      assert Matched(s, g);
    }
  }

  lemma RunEndsOne(c: Limits, s: Queue, g: Jid, run: RunId, outcome: Outcome, now: int)
    requires One(s) && (g, run) in s.msgRuns
    ensures One(OnMessageRunEnds(c, s, g, run, outcome, now))
  {
    var st := AfterOutcome(Get(s, g), outcome, now);
    PutOne(s, g, st);
    EndMessagesOne(Put(s, g, st), g, run);
    DrainGroupOne(c, Ended(s, g, run, outcome, now), g);
  }

  lemma CloseStdinOne(s0: Queue, g: Jid)
    requires One(s0)
    ensures One(OnCloseStdin(s0, g))
  {
    PutOne(s0, g, Get(s0, g));
    var s := Touch(s0, g);
    assert Matched(s, g);
    PutOne(s, g, CloseGroup(Get(s, g)));
    assert OnCloseStdin(s0, g) == Put(s, g, CloseGroup(Get(s, g)));
  }

  lemma RegisterProcessOne(s: Queue, g: Jid, ipcDir: bool)
    requires One(s)
    ensures One(OnRegisterProcess(s, g, ipcDir))
  {
    PutOne(s, g, Get(s, g));
    var st := Get(s, g);
    PutOne(Touch(s, g), g, st.(hasProcess := true, hasIpcDir := st.hasIpcDir || ipcDir));
  }

  lemma RetryFiresOne(c: Limits, s: Queue, g: Jid, now: int)
    requires One(s) && !StartsListed(c, s, RetryFires(g, now))
    ensures One(OnRetryFires(c, s, g, now))
  {
    var st := Get(s, g).(retryTimer := false, retryScheduledAt := None);
    PutOne(s, g, st);
    MessageCheckOne(c, Put(s, g, st), g, false, now);
  }

  /** A block that starts a listed group leaves a busy group in the waiting list. */
  lemma StartsListedBreaks(c: Limits, s: Queue, e: Event)
    requires Enabled(s, e) && StartsListed(c, s, e)
    ensures !One(Step(c, s, e))
  {
    match e
    case MessageCheck(g, ipcDir, now) => MessageStartBreaks(c, s, g, ipcDir, now);
    case RetryFires(g, now) =>
      MessageStartBreaks(c, Put(s, g, Get(s, g).(retryTimer := false, retryScheduledAt := None)), g, false, now);
    case TaskRequest(g, t) =>
      var r := StartTask(Accept(Touch(s, g), g, t), g, t);
      assert OnTaskRequest(c, s, g, t) == r;
      assert g in r.waiting && Get(r, g).runPhase == RunningTask;
  }

  lemma MessageStartBreaks(c: Limits, s: Queue, g: Jid, ipcDir: bool, now: int)
    requires g in s.waiting && MessageStart(c, s, g, now)
    ensures !One(OnMessageCheck(c, s, g, ipcDir, now))
  {
    var r := StartMessages(NoteIpc(s, g, ipcDir), g);
    assert OnMessageCheck(c, s, g, ipcDir, now) == r;
    assert g in r.waiting && Get(r, g).runPhase == RunningMessages;
  }

  /** One run per group and idle listed groups survive a block exactly when it does not start a listed
      group. */
  lemma OneRunStep(c: Limits, s: Queue, e: Event)
    requires One(s) && Enabled(s, e)
    ensures One(Step(c, s, e)) <==> !StartsListed(c, s, e)
  {
    if StartsListed(c, s, e) {
      StartsListedBreaks(c, s, e);
      return;
    }
    match e
    case SetHandler =>
      SameRunsOne(s, s.(handler := true));
      DrainWaitingOne(c, s.(handler := true));
    case EnterRecovery => SameRunsOne(s, s.(recoveryMode := true));
    case RecoveryEnds =>
      SameRunsOne(s, s.(recoveryMode := false));
      DrainWaitingOne(c, s.(recoveryMode := false));
    case MessageCheck(g, ipcDir, now) => MessageCheckOne(c, s, g, ipcDir, now);
    case TaskRequest(g, t) => TaskRequestOne(c, s, g, t);
    case RegisterProcess(g, ipcDir) => RegisterProcessOne(s, g, ipcDir);
    case CloseStdin(g) => CloseStdinOne(s, g);
    case MessageRunEnds(g, run, outcome, now) => RunEndsOne(c, s, g, run, outcome, now);
    case TaskRunEnds(g, t) =>
      EndTaskOne(s, g, t);
      DrainGroupOne(c, EndTask(s, g, t), g);
    case RetryFires(g, now) => RetryFiresOne(c, s, g, now);
    case Shutdown => ShutdownOne(s);
  }

  /** What "one run" means in plain counts. */
  lemma OneMeansAtMostOneRun(s: Queue, g: Jid)
    requires One(s)
    ensures forall r, q :: (g, r) in s.msgRuns && (g, q) in s.msgRuns ==> r == q && s.msgRuns[(g, r)] == 1
    ensures forall t, u :: (g, t) in s.taskRuns && (g, u) in s.taskRuns ==> t == u && s.taskRuns[(g, t)] == 1
    ensures forall r, t :: !((g, r) in s.msgRuns && (g, t) in s.taskRuns)
    ensures forall r :: (g, r) in s.msgRuns ==>
              Get(s, g).currentRunId == Some(r) && Get(s, g).runPhase in {RunningMessages, ClosingMessages}
    ensures forall t :: (g, t) in s.taskRuns ==> Get(s, g).runningTaskId == Some(t) && Get(s, g).runPhase == RunningTask
  {
    assert Matched(s, g);
    assert forall r :: (g, r) in s.msgRuns <==> s.msgRuns[(g, r)] > 0;
    assert forall t :: (g, t) in s.taskRuns <==> s.taskRuns[(g, t)] > 0;
  }

  /** No block of the history starts a listed group. */
  ghost predicate NeverStartsListed(c: Limits, es: seq<Event>)
    decreases |es|
  {
    es == [] ||
    var p := Exec(c, EMPTY_QUEUE, es[..|es| - 1]);
    var e := es[|es| - 1];
    NeverStartsListed(c, es[..|es| - 1]) && (Enabled(p, e) ==> !StartsListed(c, p, e))
  }

  /** After every block of the history, one run per group. */
  ghost predicate AlwaysOne(c: Limits, es: seq<Event>)
    decreases |es|
  {
    One(Exec(c, EMPTY_QUEUE, es)) && (es == [] || AlwaysOne(c, es[..|es| - 1]))
  }

  /** Over whole histories: the same throughout exactly when no block starts a listed group. */
  lemma {:induction false} OneRunPerGroup(c: Limits, es: seq<Event>)
    ensures AlwaysOne(c, es) <==> NeverStartsListed(c, es)
    decreases |es|
  {
    if es == [] {
      assert forall g :: Get(EMPTY_QUEUE, g) == FRESH_GROUP;
    } else {
      var p := Exec(c, EMPTY_QUEUE, es[..|es| - 1]);
      OneRunPerGroup(c, es[..|es| - 1]);
      if One(p) && Enabled(p, es[|es| - 1]) {
        OneRunStep(c, p, es[|es| - 1]);
      }
    }
  }
}
