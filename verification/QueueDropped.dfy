/** When pending messages are dropped: a block clears them without leaving a run that processes them exactly
    when it runs a group before the handler is installed. */
module QueueDropped {
  import opened Basics
  import opened QueueState
  import opened QueueSteps
  import opened QueueInvariants
  import opened QueueDrain
  import opened QueueTraces
  import opened QueueBackoff

  /** From s to r the pending messages of the group are gone, and no run has taken them. */
  ghost predicate Dropped(s: Queue, r: Queue, g: Jid) {
    Get(s, g).pendingMessages && !Get(r, g).pendingMessages && !NewRun(r, s.nextRun, g)
  }

  ghost predicate DropsSome(s: Queue, r: Queue) {
    exists g :: Dropped(s, r, g)
  }

  /** A slot is free, and somebody listed has messages. */
  predicate DrainsMessages(c: Limits, d: Option<Queue>) {
    d.Some? && d.value.activeCount < EffectiveMax(c, d.value) && Messages(d.value) != []
  }

  /** The end of a run goes on with the messages of its own group. */
  predicate OwnMessages(s: Queue, e: Event) {
    (e.MessageRunEnds? || e.TaskRunEnds?) && GoesOnWithMessages(s, Get(s, e.g))
  }

  /** Before the handler is installed, a run ends whose group has messages and no task, or the list is drained
      into a group with messages. */
  predicate RunsUnhandled(c: Limits, s: Queue, e: Event) {
    !s.handler && !e.SetHandler? && (OwnMessages(s, e) || DrainsMessages(c, AboutToDrain(s, e)))
  }

  // ---- with a handler

  /** Whoever had messages in s0 has them in r, or has a run since. */
  ghost predicate Taken(s0: Queue, r: Queue) {
    && s0.nextRun <= r.nextRun
    && forall g :: Get(s0, g).pendingMessages ==> Get(r, g).pendingMessages || NewRun(r, s0.nextRun, g)
  }

  lemma StartMessagesTakes(s0: Queue, s: Queue, g: Jid)
    requires Taken(s0, s)
    ensures Taken(s0, StartMessages(s, g))
  {
    hide AssertReports, TransitionReports;
    var r := StartMessages(s, g);
    assert (g, s.nextRun) in r.msgRuns;
    forall h | Get(s0, h).pendingMessages ensures Get(r, h).pendingMessages || NewRun(r, s0.nextRun, h) {
      if h != g && !Get(s, h).pendingMessages {
        var run: RunId :| run >= s0.nextRun && (h, run) in s.msgRuns;
        assert (h, run) in r.msgRuns;
      }
    }
  }

  /** Steps that clear no message and end no message run. */
  lemma SameMessagesTakes(s0: Queue, s: Queue, r: Queue)
    requires Taken(s0, s) && s.nextRun <= r.nextRun
    requires forall g :: Get(s, g).pendingMessages ==> Get(r, g).pendingMessages
    requires s.msgRuns <= r.msgRuns
    ensures Taken(s0, r)
  {
    forall h | Get(s0, h).pendingMessages ensures Get(r, h).pendingMessages || NewRun(r, s0.nextRun, h) {
      if !Get(s, h).pendingMessages {
        var run: RunId :| run >= s0.nextRun && (h, run) in s.msgRuns;
        assert (h, run) in r.msgRuns;
      }
    }
  }

  lemma StartQueuedTakes(s0: Queue, s: Queue, g: Jid)
    requires Taken(s0, s) && |Get(s, g).pendingTasks| > 0
    ensures Taken(s0, StartQueued(s, g))
  {
    StartQueuedKeepsMessages(s, g);
    hide StartQueued;
    SameMessagesTakes(s0, s, StartQueued(s, g));
  }

  lemma StartQueuedKeepsMessages(s: Queue, g: Jid)
    requires |Get(s, g).pendingTasks| > 0
    ensures var r := StartQueued(s, g);
            && r.nextRun == s.nextRun && r.msgRuns == s.msgRuns && r.waiting == s.waiting
            && r.activeCount == s.activeCount + 1
            && forall h :: Get(r, h).pendingMessages == Get(s, h).pendingMessages
  {
    hide AssertReports, TransitionReports;
  }

  lemma {:induction false} DrainTakes(c: Limits, s0: Queue, s: Queue)
    requires s.handler && Taken(s0, s)
    ensures Taken(s0, DrainWaiting(c, s))
    decreases |s.waiting|
  {
    hide NextIndex, Taken, StartMessages, StartQueued;
    var k := NextIndex(c, s);
    if |s.waiting| > 0 && s.activeCount < EffectiveMax(c, s) && k < |s.waiting| {
      var g, s1 := s.waiting[k], Unlist(s, k);
      UnlistTakes(s0, s, k);
      StartsOne(s1, g);
      if Get(s1, g).pendingMessages {
        StartMessagesTakes(s0, s1, g);
        DrainTakes(c, s0, StartMessages(s1, g));
      } else {
        StartQueuedTakes(s0, s1, g);
        DrainTakes(c, s0, StartQueued(s1, g));
      }
    }
  }

  lemma UnlistTakes(s0: Queue, s: Queue, k: nat)
    requires Taken(s0, s) && k < |s.waiting|
    ensures Taken(s0, Unlist(s, k))
  {
    SameMessagesTakes(s0, s, Unlist(s, k));
  }

  lemma DrainGroupTakes(c: Limits, s0: Queue, s: Queue, g: Jid)
    requires s.handler && Taken(s0, s)
    ensures Taken(s0, DrainGroup(c, s, g))
  {
    hide Taken, StartMessages, StartQueued, DrainWaiting, DrainGroup;
    DrainGroupGoesOn(c, s, g);
    if !s.shuttingDown {
      if Get(s, g).pendingTasks != [] {
        StartQueuedTakes(s0, s, g);
      } else if Get(s, g).pendingMessages {
        StartMessagesTakes(s0, s, g);
      } else {
        DrainTakes(c, s0, s);
      }
    }
  }

  // ---- without a handler

  /** Nobody gets messages while anything is drained. */
  ghost predicate NoneAdded(s: Queue, r: Queue) {
    forall h :: Get(r, h).pendingMessages ==> Get(s, h).pendingMessages
  }

  lemma {:induction false} DrainAddsNone(c: Limits, s: Queue)
    ensures NoneAdded(s, DrainWaiting(c, s))
    decreases |s.waiting|, 0, 0
  {
    hide NextIndex, StartQueued, RunForGroup;
    var k := NextIndex(c, s);
    if |s.waiting| > 0 && s.activeCount < EffectiveMax(c, s) && k < |s.waiting| {
      var g, s1 := s.waiting[k], Unlist(s, k);
      assert NoneAdded(s, s1);
      if Get(s1, g).pendingMessages {
        RunAddsNone(c, s1, g);
        DrainAddsNone(c, RunForGroup(c, s1, g));
      } else {
        StartQueuedKeepsMessages(s1, g);
        DrainAddsNone(c, StartQueued(s1, g));
      }
    }
  }

  lemma {:induction false} RunAddsNone(c: Limits, s: Queue, g: Jid)
    ensures NoneAdded(s, RunForGroup(c, s, g)) && !Get(RunForGroup(c, s, g), g).pendingMessages
    decreases |s.waiting|, 1, 1
  {
    hide AssertReports, TransitionReports, DrainGroup;
    var s1 := StartMessages(s, g);
    assert NoneAdded(s, s1) && !Get(s1, g).pendingMessages;
    if !s.handler {
      var s2 := EndMessages(s1, g, s.nextRun);
      assert NoneAdded(s1, s2) && !Get(s2, g).pendingMessages;
      DrainGroupAddsNone(c, s2, g);
    }
  }

  lemma {:induction false} DrainGroupAddsNone(c: Limits, s: Queue, g: Jid)
    ensures NoneAdded(s, DrainGroup(c, s, g))
    decreases |s.waiting|, 1, if Get(s, g).pendingMessages then 2 else 0
  {
    hide StartQueued, RunForGroup, DrainWaiting;
    if s.shuttingDown {
    } else if |Get(s, g).pendingTasks| > 0 {
      StartQueuedKeepsMessages(s, g);
    } else if Get(s, g).pendingMessages {
      RunAddsNone(c, s, g);
    } else {
      DrainAddsNone(c, s);
    }
  }

  /** When the slots are full or nobody listed has messages, only tasks are started. */
  lemma {:induction false} DrainOfTasks(c: Limits, s0: Queue, s: Queue)
    requires Taken(s0, s) && !DrainsMessages(c, Some(s))
    ensures Taken(s0, DrainWaiting(c, s))
    decreases |s.waiting|
  {
    hide Taken, StartQueued, NextIndex;
    var k := NextIndex(c, s);
    if |s.waiting| > 0 && s.activeCount < EffectiveMax(c, s) && k < |s.waiting| {
      var g, s1 := s.waiting[k], Unlist(s, k);
      NobodyHasMessages(s);
      assert g in s.waiting && !Get(s1, g).pendingMessages;
      UnlistTakes(s0, s, k);
      StartQueuedTakes(s0, s1, g);
      StartQueuedKeepsMessages(s1, g);
      var r := StartQueued(s1, g);
      forall h | h in r.waiting ensures !Get(r, h).pendingMessages {
        assert h in s.waiting && Get(s1, h) == Get(s, h);
      }
      SelectNone(r.waiting, HasMessages(r));
      DrainOfTasks(c, s0, r);
    }
  }

  lemma NobodyHasMessages(s: Queue)
    requires Messages(s) == []
    ensures forall h :: h in s.waiting ==> !Get(s, h).pendingMessages
  {
    forall h | h in s.waiting ensures !Get(s, h).pendingMessages {
      assert h in Messages(s) <==> Get(s, h).pendingMessages;
    }
  }

  /** Otherwise the first of them is run, and its messages are gone. */
  lemma DrainDrops(c: Limits, s: Queue) returns (g: Jid)
    requires !s.handler && DrainsMessages(c, Some(s))
    ensures Get(s, g).pendingMessages && !Get(DrainWaiting(c, s), g).pendingMessages
    ensures DrainWaiting(c, s).msgRuns == s.msgRuns
  {
    hide RunForGroup, Select;
    DrainingWithoutHandler(c, s);
    FirstHasMessages(s);
    var k := NextIndex(c, s);
    g := s.waiting[k];
    var s1 := Unlist(s, k);
    assert Get(s1, g) == Get(s, g);
    RunAddsNone(c, s1, g);
    DrainAddsNone(c, RunForGroup(c, s1, g));
  }

  lemma FirstHasMessages(s: Queue)
    requires Messages(s) != []
    ensures FirstMessage(s, 0) < |s.waiting|
  {
    assert Messages(s)[0] in Messages(s);
    var h := Messages(s)[0];
    var i :| 0 <= i < |s.waiting| && s.waiting[i] == h;
  }

  lemma NoneSince(s: Queue, r: Queue, g: Jid)
    requires Inv(s) && r.msgRuns <= s.msgRuns
    ensures !NewRun(r, s.nextRun, g)
  {
    hide Inv;
    NoNewRuns(s, g);
    SameRunsNew(s, r, s.nextRun, g);
  }

  // ---- events

  lemma TakenDropsNone(s: Queue, r: Queue)
    requires Taken(s, r)
    ensures !DropsSome(s, r)
  {
  }

  lemma TakenItself(s: Queue, r: Queue)
    requires r.nextRun == s.nextRun && forall g :: Get(r, g).pendingMessages == Get(s, g).pendingMessages
    ensures Taken(s, r)
  {
  }

  lemma CheckTakes(c: Limits, s: Queue, g: Jid, ipcDir: bool, now: int)
    ensures Taken(s, OnMessageCheck(c, s, g, ipcDir, now))
  {
    hide CheckMessages, Taken;
    var s1 := NoteIpc(s, g, ipcDir);
    NoteIpcTakes(s, g, ipcDir);
    if s.shuttingDown {
      TakenItself(s, s);
    } else {
      CheckMessagesTakes(c, s, s1, g, now);
    }
  }

  lemma NoteIpcTakes(s: Queue, g: Jid, ipcDir: bool)
    ensures Taken(s, NoteIpc(s, g, ipcDir))
  {
    TakenItself(s, NoteIpc(s, g, ipcDir));
  }

  lemma CheckMessagesTakes(c: Limits, s0: Queue, s: Queue, g: Jid, now: int)
    requires Taken(s0, s)
    ensures Taken(s0, CheckMessages(c, s, g, now))
  {
    hide StartMessages, Taken, EffectiveMax, Backoff;
    var m := MarkPending(s, g);
    SameMessagesTakes(s0, s, m);
    SameMessagesTakes(s0, s, List(m, g));
    StartMessagesTakes(s0, s, g);
  }

  lemma RetryTakes(c: Limits, s: Queue, g: Jid, now: int)
    ensures Taken(s, OnRetryFires(c, s, g, now))
  {
    hide OnMessageCheck;
    var s1 := Put(s, g, Get(s, g).(retryTimer := false, retryScheduledAt := None));
    CheckTakes(c, s1, g, false, now);
    assert forall h :: Get(s1, h).pendingMessages == Get(s, h).pendingMessages;
  }

  lemma RequestTakes(c: Limits, s: Queue, g: Jid, t: TaskId)
    ensures Taken(s, OnTaskRequest(c, s, g, t))
  {
    hide QueueTask, Taken, Duplicate;
    var s1 := Accept(Touch(s, g), g, t);
    assert forall h :: Get(s1, h) == Get(s, h) && Get(Touch(s, g), h) == Get(s, h);
    TakenItself(s, s);
    TakenItself(s, Touch(s, g));
    QueueTaskKeepsMessages(c, s1, g, t);
    TakenItself(s, QueueTask(c, s1, g, t));
  }

  lemma QueueTaskKeepsMessages(c: Limits, s: Queue, g: Jid, t: TaskId)
    ensures var r := QueueTask(c, s, g, t);
            r.nextRun == s.nextRun && forall h :: Get(r, h).pendingMessages == Get(s, h).pendingMessages
  {
    hide StartTask, Push, EffectiveMax;
    StartTaskKeepsMessages(s, g, t);
    PushKeepsMessages(s, g, t);
  }

  lemma StartTaskKeepsMessages(s: Queue, g: Jid, t: TaskId)
    ensures var r := StartTask(s, g, t);
            r.nextRun == s.nextRun && forall h :: Get(r, h).pendingMessages == Get(s, h).pendingMessages
  {
    hide AssertReports, TransitionReports;
  }

  lemma PushKeepsMessages(s: Queue, g: Jid, t: TaskId)
    ensures var r := Push(s, g, t);
            r.nextRun == s.nextRun && forall h :: Get(r, h).pendingMessages == Get(s, h).pendingMessages
  {
  }

  lemma RecordsTake(c: Limits, s: Queue, e: Event)
    requires e.RegisterProcess? || e.CloseStdin? || e.Shutdown? || e.EnterRecovery?
    ensures Taken(s, Step(c, s, e))
  {
    hide AssertReports, TransitionReports, ShutdownReports, CloseReports;
    TakenItself(s, Step(c, s, e));
  }

  lemma NothingToDrain(c: Limits)
    ensures !DrainsMessages(c, None)
  {
  }

  /** What the end of a run does: `s0` is the state before it, `s` the state in which its group is drained. */
  lemma RunEndDrops(c: Limits, s0: Queue, s: Queue, g: Jid)
    requires Inv(s0) && s.msgRuns <= s0.msgRuns && s.nextRun == s0.nextRun && s.handler == s0.handler
    requires forall h :: Get(s, h).pendingMessages == Get(s0, h).pendingMessages
    ensures DropsSome(s0, DrainGroup(c, s, g))
            <==> !s0.handler
                 && (GoesOnWithMessages(s, Get(s, g)) || DrainsMessages(c, GoesOnToDrain(s, g)))
  {
    hide Inv, Taken, Dropped, RunForGroup, DrainWaiting, StartQueued, DrainsMessages, DrainGroup;
    TakenItself(s0, s);
    NothingToDrain(c);
    if s.handler {
      DrainGroupTakes(c, s0, s, g);
      TakenDropsNone(s0, DrainGroup(c, s, g));
    } else if s.shuttingDown || Get(s, g).pendingTasks != [] {
      RunEndStops(c, s0, s, g);
    } else if Get(s, g).pendingMessages {
      RunEndDropsOwn(c, s0, s, g);
    } else {
      assert DrainGroup(c, s, g) == DrainWaiting(c, s) by { GoesOnToList(c, s, g); }
      ListDrops(c, s0, s);
    }
  }

  lemma GoesOnToList(c: Limits, s: Queue, g: Jid)
    requires !s.shuttingDown && Get(s, g).pendingTasks == [] && !Get(s, g).pendingMessages
    ensures DrainGroup(c, s, g) == DrainWaiting(c, s)
  {
    hide DrainWaiting;
  }

  lemma RunEndStops(c: Limits, s0: Queue, s: Queue, g: Jid)
    requires Taken(s0, s) && (s.shuttingDown || Get(s, g).pendingTasks != [])
    ensures !DropsSome(s0, DrainGroup(c, s, g))
  {
    hide Taken, StartQueued;
    if !s.shuttingDown {
      StartQueuedTakes(s0, s, g);
    }
    TakenDropsNone(s0, DrainGroup(c, s, g));
  }

  lemma RunEndDropsOwn(c: Limits, s0: Queue, s: Queue, g: Jid)
    requires Inv(s0) && s.msgRuns <= s0.msgRuns && !s.handler && !s.shuttingDown
    requires Get(s, g).pendingTasks == [] && Get(s, g).pendingMessages && Get(s0, g).pendingMessages
    ensures DropsSome(s0, DrainGroup(c, s, g))
  {
    hide Inv, RunForGroup;
    RunAddsNone(c, s, g);
    RunWithoutAnyHandler(c, s, g);
    NoneSince(s0, DrainGroup(c, s, g), g);
    assert Dropped(s0, DrainGroup(c, s, g), g);
  }

  lemma ListDrops(c: Limits, s0: Queue, s: Queue)
    requires Inv(s0) && s.msgRuns <= s0.msgRuns && s.nextRun == s0.nextRun && !s.handler
    requires forall h :: Get(s, h).pendingMessages == Get(s0, h).pendingMessages
    ensures DropsSome(s0, DrainWaiting(c, s)) <==> DrainsMessages(c, Some(s))
  {
    hide Inv, DrainWaiting, DrainsMessages;
    if DrainsMessages(c, Some(s)) {
      var g := DrainDrops(c, s);
      NoneSince(s0, DrainWaiting(c, s), g);
      assert Dropped(s0, DrainWaiting(c, s), g);
    } else {
      TakenItself(s0, s);
      DrainOfTasks(c, s0, s);
      TakenDropsNone(s0, DrainWaiting(c, s));
    }
  }

  lemma EndedKeepsMessages(s: Queue, g: Jid, run: RunId, outcome: Outcome, now: int)
    ensures var r := Ended(s, g, run, outcome, now);
            && r.msgRuns <= s.msgRuns && r.nextRun == s.nextRun && SameModes(s, r)
            && Get(r, g).pendingTasks == Get(s, g).pendingTasks
            && forall h :: Get(r, h).pendingMessages == Get(s, h).pendingMessages
  {
    hide AssertReports, TransitionReports;
  }

  lemma EndTaskKeepsMessages(s: Queue, g: Jid, t: TaskId)
    ensures var r := EndTask(s, g, t);
            && r.msgRuns == s.msgRuns && r.nextRun == s.nextRun && SameModes(s, r)
            && Get(r, g).pendingTasks == Get(s, g).pendingTasks
            && forall h :: Get(r, h).pendingMessages == Get(s, h).pendingMessages
  {
    hide AssertReports, TransitionReports;
  }

  /** A block drops messages exactly when, before the handler is installed, it ends a run whose group has
      messages and no task, or drains the list into a group with messages. */
  lemma MessagesDroppedStep(c: Limits, s: Queue, e: Event)
    requires Inv(s) && Enabled(s, e)
    ensures DropsSome(s, Step(c, s, e)) <==> RunsUnhandled(c, s, e)
  {
    hide Inv, Taken, DropsSome, DrainsMessages, DrainWaiting, DrainGroup, Ended, EndTask, OnMessageCheck,
         OnTaskRequest, OnRetryFires, OnRegisterProcess, OnCloseStdin, OnShutdown;
    NothingToDrain(c);
    match e
    case SetHandler =>
      var d := s.(handler := true);
      TakenItself(s, d);
      DrainTakes(c, s, d);
      TakenDropsNone(s, DrainWaiting(c, d));
    case RecoveryEnds =>
      var d := s.(recoveryMode := false);
      if s.handler {
        TakenItself(s, d);
        DrainTakes(c, s, d);
        TakenDropsNone(s, DrainWaiting(c, d));
      } else {
        ListDrops(c, s, d);
      }
    case MessageRunEnds(g, run, outcome, now) =>
      EndedKeepsMessages(s, g, run, outcome, now);
      RunEndDrops(c, s, Ended(s, g, run, outcome, now), g);
    case TaskRunEnds(g, t) =>
      EndTaskKeepsMessages(s, g, t);
      RunEndDrops(c, s, EndTask(s, g, t), g);
    case MessageCheck(g, ipcDir, now) =>
      CheckTakes(c, s, g, ipcDir, now);
      TakenDropsNone(s, Step(c, s, e));
    case RetryFires(g, now) =>
      RetryTakes(c, s, g, now);
      TakenDropsNone(s, Step(c, s, e));
    case TaskRequest(g, t) =>
      RequestTakes(c, s, g, t);
      TakenDropsNone(s, Step(c, s, e));
    case _ =>
      RecordsTake(c, s, e);
      TakenDropsNone(s, Step(c, s, e));
  }
}
