/** Histories without tasks: one run per group, as long as recovery does not raise the limit. */
module QueueMessagesOnly {
  import opened Basics
  import opened QueueState
  import opened QueueSteps
  import opened QueueOneRun
  import opened QueueCapacity

  /** No task anywhere, and whoever is listed waits with messages. */
  ghost predicate Quiet(s: Queue) {
    && NoDuplicates(s.waiting)
    && s.taskRuns == multiset{}
    && (forall g :: Get(s, g).pendingTasks == [])
    && (forall g :: g in s.waiting ==> Get(s, g).pendingMessages)
  }

  /** As long as the list is not empty the slots are full. */
  ghost predicate Full(c: Limits, s: Queue) {
    s.handler && !s.shuttingDown && |s.waiting| > 0 ==> s.activeCount >= EffectiveMax(c, s)
  }

  lemma OneGroupQuiet(s: Queue, r: Queue, g: Jid)
    requires Quiet(s) && NoDuplicates(r.waiting) && r.taskRuns == s.taskRuns
    requires forall h :: h != g ==> Get(r, h) == Get(s, h)
    requires forall h :: h in r.waiting ==> h in s.waiting || h == g
    requires Get(r, g).pendingTasks == [] && (g in r.waiting ==> Get(r, g).pendingMessages)
    ensures Quiet(r)
  {
    forall h | h != g ensures Get(r, h).pendingTasks == [] && (h in r.waiting ==> Get(r, h).pendingMessages) {
      assert Get(r, h) == Get(s, h);
    }
  }

  lemma UnlistQuiet(s: Queue, k: nat)
    requires Quiet(s) && k < |s.waiting|
    ensures Quiet(Unlist(s, k)) && s.waiting[k] !in Unlist(s, k).waiting
  {
    var g, r := s.waiting[k], Unlist(s, k);
    assert g !in r.waiting;
    assert Get(r, g) == Get(s, g);
    OneGroupQuiet(s, r, g);
  }

  // ---- draining

  lemma {:induction false} DrainWaitingQuiet(c: Limits, s: Queue)
    requires Quiet(s)
    ensures Quiet(DrainWaiting(c, s))
    decreases |s.waiting|, 0, 0
  {
    var k := NextIndex(c, s);
    if |s.waiting| > 0 && s.activeCount < EffectiveMax(c, s) && k < |s.waiting| {
      var g := s.waiting[k];
      var s1 := Unlist(s, k);
      UnlistQuiet(s, k);
      assert Get(s1, g) == Get(s, g);
      RunForGroupQuiet(c, s1, g);
      DrainWaitingQuiet(c, RunForGroup(c, s1, g));
    }
  }

  lemma {:induction false} RunForGroupQuiet(c: Limits, s: Queue, g: Jid)
    requires Quiet(s) && g !in s.waiting
    ensures Quiet(RunForGroup(c, s, g))
    decreases |s.waiting|, 1, 1
  {
    var s1 := StartMessages(s, g);
    OneGroupQuiet(s, s1, g);
    if !s.handler {
      var s2 := EndMessages(s1, g, s.nextRun);
      OneGroupQuiet(s1, s2, g);
      DrainGroupQuiet(c, s2, g);
    }
  }

  lemma {:induction false} DrainGroupQuiet(c: Limits, s: Queue, g: Jid)
    requires Quiet(s) && g !in s.waiting
    ensures Quiet(DrainGroup(c, s, g))
    decreases |s.waiting|, 1, if Get(s, g).pendingMessages then 2 else 0
  {
    assert Get(s, g).pendingTasks == [];
    if s.shuttingDown {
    } else if Get(s, g).pendingMessages {
      RunForGroupQuiet(c, s, g);
    } else {
      DrainWaitingQuiet(c, s);
    }
  }

  lemma DrainWaitingFull(c: Limits, s: Queue)
    requires Quiet(s)
    ensures Full(c, DrainWaiting(c, s))
  {
    if s.handler {
      var r := DrainWaiting(c, s);
      DrainWaitingQuiet(c, s);
      DrainWaitingExit(c, s);
      if |r.waiting| > 0 {
        assert r.waiting[0] in r.waiting;
      }
    }
  }

  /** `s0` is the state before the run of g ended, `s` the state after. */
  lemma DrainGroupFull(c: Limits, s0: Queue, s: Queue, g: Jid)
    requires Full(c, s0) && Quiet(s) && g !in s.waiting && SameModes(s0, s)
    requires s.waiting == s0.waiting && s.activeCount == s0.activeCount - 1
    ensures Full(c, DrainGroup(c, s, g))
  {
    assert Get(s, g).pendingTasks == [];
    if s.handler && !s.shuttingDown {
      if Get(s, g).pendingMessages {
        assert RunForGroup(c, s, g) == StartMessages(s, g);
      } else {
        DrainWaitingFull(c, s);
      }
    }
  }

  // ---- events

  /** What message-only histories keep. */
  ghost predicate Calm(c: Limits, s: Queue) {
    One(s) && Quiet(s) && Full(c, s)
  }

  lemma ListQuiet(s: Queue, g: Jid)
    requires Quiet(s) && Get(s, g).pendingMessages
    ensures Quiet(List(s, g))
  {
    if g !in s.waiting {
      DistinctSnoc(s.waiting, g);
    }
    OneGroupQuiet(s, List(s, g), g);
  }

  lemma MarkedQuiet(s: Queue, g: Jid)
    requires Quiet(s)
    ensures Quiet(MarkPending(s, g)) && Quiet(List(MarkPending(s, g), g))
  {
    assert Get(s, g).pendingTasks == [];
    OneGroupQuiet(s, MarkPending(s, g), g);
    ListQuiet(MarkPending(s, g), g);
  }

  lemma CheckMessagesQuiet(c: Limits, s: Queue, g: Jid, now: int)
    requires Quiet(s) && Full(c, s) && !s.shuttingDown
    ensures Quiet(CheckMessages(c, s, g, now))
  {
    hide AssertReports, TransitionReports, Backoff;
    assert Get(s, g).pendingTasks == [];
    if MessageStart(c, s, g, now) {
      assert s.waiting == [];
      OneGroupQuiet(s, StartMessages(s, g), g);
    } else {
      MarkedQuiet(s, g);
    }
  }

  lemma CheckMessagesFull(c: Limits, s: Queue, g: Jid, now: int)
    requires Full(c, s)
    ensures Full(c, CheckMessages(c, s, g, now))
  {
    hide AssertReports, TransitionReports, Backoff;
  }

  lemma CheckMessagesCalm(c: Limits, s: Queue, g: Jid, now: int)
    requires Calm(c, s) && !s.shuttingDown
    ensures Calm(c, CheckMessages(c, s, g, now))
  {
    hide CheckMessages, One;
    CheckMessagesOne(c, s, g, now);
    CheckMessagesQuiet(c, s, g, now);
    CheckMessagesFull(c, s, g, now);
  }

  /** Records may change as long as messages stay pending and no task appears. */
  lemma PutCalm(c: Limits, s: Queue, g: Jid, st: Group)
    requires Calm(c, s)
    requires var o := Get(s, g);
             && st.currentRunId == o.currentRunId && st.runningTaskId == o.runningTaskId
             && (st.runPhase == o.runPhase || (o.runPhase == RunningMessages && st.runPhase == ClosingMessages))
             && st.pendingTasks == o.pendingTasks && st.pendingMessages == o.pendingMessages
    ensures Calm(c, Put(s, g, st))
  {
    assert Get(s, g).pendingTasks == [];
    PutOne(s, g, st);
    OneGroupQuiet(s, Put(s, g, st), g);
  }

  lemma MessageCheckCalm(c: Limits, s: Queue, g: Jid, ipcDir: bool, now: int)
    requires Calm(c, s) && !s.shuttingDown
    ensures Calm(c, OnMessageCheck(c, s, g, ipcDir, now))
  {
    PutCalm(c, s, g, Get(s, g).(hasIpcDir := Get(s, g).hasIpcDir || ipcDir));
    CheckMessagesCalm(c, NoteIpc(s, g, ipcDir), g, now);
  }

  lemma RetryFiresCalm(c: Limits, s: Queue, g: Jid, now: int)
    requires Calm(c, s)
    ensures Calm(c, OnRetryFires(c, s, g, now))
  {
    var st := Get(s, g).(retryTimer := false, retryScheduledAt := None);
    PutCalm(c, s, g, st);
    if !s.shuttingDown {
      MessageCheckCalm(c, Put(s, g, st), g, false, now);
    }
  }

  lemma RecordsCalm(c: Limits, s: Queue, g: Jid, ipcDir: bool)
    requires Calm(c, s)
    ensures Calm(c, OnRegisterProcess(s, g, ipcDir)) && Calm(c, OnCloseStdin(s, g))
  {
    var st := Get(s, g);
    PutCalm(c, s, g, st);
    var s1 := Touch(s, g);
    PutCalm(c, s1, g, st.(hasProcess := true, hasIpcDir := st.hasIpcDir || ipcDir));
    assert Matched(s1, g);
    PutCalm(c, s1, g, CloseGroup(st));
    assert OnCloseStdin(s, g) == Put(s1, g, CloseGroup(st));
  }

  lemma RunEndsCalm(c: Limits, s: Queue, g: Jid, run: RunId, outcome: Outcome, now: int)
    requires Calm(c, s) && (g, run) in s.msgRuns
    ensures Calm(c, OnMessageRunEnds(c, s, g, run, outcome, now))
  {
    var s1, s2 := Put(s, g, AfterOutcome(Get(s, g), outcome, now)), Ended(s, g, run, outcome, now);
    PutCalm(c, s, g, AfterOutcome(Get(s, g), outcome, now));
    EndMessagesOne(s1, g, run);
    assert Get(s1, g).pendingTasks == [];
    OneGroupQuiet(s1, s2, g);
    DrainGroupOne(c, s2, g);
    DrainGroupQuiet(c, s2, g);
    DrainGroupFull(c, s, s2, g);
  }

  lemma DrainCalm(c: Limits, s: Queue)
    requires One(s) && Quiet(s)
    ensures Calm(c, DrainWaiting(c, s))
  {
    DrainWaitingOne(c, s);
    DrainWaitingQuiet(c, s);
    DrainWaitingFull(c, s);
  }

  lemma ShutdownCalm(c: Limits, s: Queue)
    requires Calm(c, s)
    ensures Calm(c, OnShutdown(s))
  {
    var r := OnShutdown(s);
    ShutdownOne(s);
    forall g ensures Get(r, g).pendingTasks == [] && Get(r, g).pendingMessages == Get(s, g).pendingMessages {
      assert Get(s, g).pendingTasks == [];
    }
  }

  lemma ModesCalm(s: Queue, r: Queue)
    requires One(s) && Quiet(s) && r == s.(handler := r.handler, recoveryMode := r.recoveryMode)
    ensures One(r) && Quiet(r)
  {
    SameRunsOne(s, r);
    forall g ensures Get(r, g) == Get(s, g) && Get(s, g).pendingTasks == [] {
    }
  }

  lemma StepCalm(c: Limits, s: Queue, e: Event)
    requires c.recoveryAgents <= c.maxAgents
    requires Calm(c, s) && Enabled(s, e) && !e.TaskRequest?
    ensures Calm(c, Step(c, s, e))
  {
    match e
    case SetHandler =>
      ModesCalm(s, s.(handler := true));
      DrainCalm(c, s.(handler := true));
    case EnterRecovery => ModesCalm(s, s.(recoveryMode := true));
    case RecoveryEnds =>
      ModesCalm(s, s.(recoveryMode := false));
      DrainCalm(c, s.(recoveryMode := false));
    case MessageCheck(g, ipcDir, now) =>
      if !s.shuttingDown {
        MessageCheckCalm(c, s, g, ipcDir, now);
      }
    case RegisterProcess(g, ipcDir) => RecordsCalm(c, s, g, ipcDir);
    case CloseStdin(g) => RecordsCalm(c, s, g, false);
    case MessageRunEnds(g, run, outcome, now) => RunEndsCalm(c, s, g, run, outcome, now);
    case TaskRunEnds(g, t) =>
    case RetryFires(g, now) => RetryFiresCalm(c, s, g, now);
    case Shutdown => ShutdownCalm(c, s);
  }

  /** Without tasks every history keeps one run per group, waiting groups idle and the phase
      checks silent, and the slots are full whenever someone waits. */
  lemma {:induction false} MessagesOnlyOneRun(c: Limits, es: seq<Event>)
    requires c.recoveryAgents <= c.maxAgents
    requires forall e :: e in es ==> !e.TaskRequest?
    ensures Calm(c, Exec(c, EMPTY_QUEUE, es))
    decreases |es|
  {
    if es == [] {
      assert forall g :: Get(EMPTY_QUEUE, g) == FRESH_GROUP;
    } else {
      var p := Exec(c, EMPTY_QUEUE, es[..|es| - 1]);
      MessagesOnlyOneRun(c, es[..|es| - 1]);
      if Enabled(p, es[|es| - 1]) {
        StepCalm(c, p, es[|es| - 1]);
      }
    }
  }
}
