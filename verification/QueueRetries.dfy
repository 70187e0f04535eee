/** The retry bookkeeping of a group as a function of the events alone: how many of its message runs have
    failed in a row, and when the next retry is due. */
module QueueRetries {
  import opened Basics
  import opened QueueState
  import opened QueueSteps

  /** failures: the message runs that have failed since the last success or give-up. */
  datatype Retry = Retry(failures: nat, due: Option<int>, armed: bool)

  const NO_RETRY := Retry(0, None, false)

  /** The waiting times after the first to the fifth failure in a row, in milliseconds. */
  const DELAYS: seq<int> := [5000, 10000, 20000, 40000, 80000]

  /** What an event means for the retries of a group. */
  function After(r: Retry, e: Event, g: Jid): Retry {
    match e
    case MessageRunEnds(h, _, outcome, now) =>
      if h != g then r
      else if outcome == Success then r.(failures := 0, due := None)
      else if r.failures < |DELAYS| then Retry(r.failures + 1, Some(now + DELAYS[r.failures]), true)
      else NO_RETRY
    case RetryFires(h, _) => if h == g then r.(due := None, armed := false) else r
    case Shutdown => r.(due := None, armed := false)
    case _ => r
  }

  function RetryOf(c: Limits, es: seq<Event>, g: Jid): Retry
    decreases |es|
  {
    if es == [] then NO_RETRY
    else
      var before, e := es[..|es| - 1], es[|es| - 1];
      if Enabled(Exec(c, EMPTY_QUEUE, before), e) then After(RetryOf(c, before, g), e, g)
      else RetryOf(c, before, g)
  }

  /** What the record of a group says. */
  function RetryIn(s: Queue, g: Jid): Retry {
    Retry(Get(s, g).retryCount, Get(s, g).retryScheduledAt, Get(s, g).retryTimer)
  }

  ghost predicate SameRetries(s: Queue, r: Queue) {
    forall g :: RetryIn(r, g) == RetryIn(s, g)
  }

  // ---- starting, ending and draining leave retries alone

  lemma StartMessagesKeeps(s: Queue, g: Jid)
    ensures SameRetries(s, StartMessages(s, g))
  {
    hide AssertReports, TransitionReports;
  }

  lemma StartTaskKeeps(s: Queue, g: Jid, t: TaskId)
    ensures SameRetries(s, StartTask(s, g, t))
  {
    hide AssertReports, TransitionReports;
  }

  lemma StartQueuedKeeps(s: Queue, g: Jid)
    requires |Get(s, g).pendingTasks| > 0
    ensures SameRetries(s, StartQueued(s, g)) && StartQueued(s, g).waiting == s.waiting
  {
    hide AssertReports, TransitionReports;
  }

  lemma EndMessagesKeeps(s: Queue, g: Jid, run: RunId)
    ensures SameRetries(s, EndMessages(s, g, run))
  {
    hide AssertReports, TransitionReports;
  }

  lemma EndTaskKeeps(s: Queue, g: Jid, t: TaskId)
    ensures SameRetries(s, EndTask(s, g, t))
  {
    hide AssertReports, TransitionReports;
  }

  lemma {:induction false} DrainWaitingKeeps(c: Limits, s: Queue)
    ensures SameRetries(s, DrainWaiting(c, s))
    decreases |s.waiting|, 0, 0
  {
    hide NextIndex, StartQueued, RunForGroup;
    var k := NextIndex(c, s);
    if |s.waiting| > 0 && s.activeCount < EffectiveMax(c, s) && k < |s.waiting| {
      var g, s1 := s.waiting[k], Unlist(s, k);
      assert SameRetries(s, s1);
      if Get(s1, g).pendingMessages {
        RunForGroupKeeps(c, s1, g);
        DrainWaitingKeeps(c, RunForGroup(c, s1, g));
      } else {
        StartQueuedKeeps(s1, g);
        DrainWaitingKeeps(c, StartQueued(s1, g));
      }
    }
  }

  lemma {:induction false} RunForGroupKeeps(c: Limits, s: Queue, g: Jid)
    ensures SameRetries(s, RunForGroup(c, s, g))
    decreases |s.waiting|, 1, 1
  {
    hide AssertReports, TransitionReports, DrainGroup;
    var s1 := StartMessages(s, g);
    StartMessagesKeeps(s, g);
    if !s.handler {
      EndMessagesKeeps(s1, g, s.nextRun);
      DrainGroupKeeps(c, EndMessages(s1, g, s.nextRun), g);
    }
  }

  lemma {:induction false} DrainGroupKeeps(c: Limits, s: Queue, g: Jid)
    ensures SameRetries(s, DrainGroup(c, s, g))
    decreases |s.waiting|, 1, if Get(s, g).pendingMessages then 2 else 0
  {
    hide StartQueued, RunForGroup, DrainWaiting;
    if s.shuttingDown {
    } else if |Get(s, g).pendingTasks| > 0 {
      StartQueuedKeeps(s, g);
    } else if Get(s, g).pendingMessages {
      RunForGroupKeeps(c, s, g);
    } else {
      DrainWaitingKeeps(c, s);
    }
  }

  // ---- events

  lemma SameGroupsRetries(s: Queue, r: Queue)
    requires r.groups == s.groups
    ensures SameRetries(s, r)
  {
  }

  /** Changes of one record that leave its retries alone. */
  lemma PutKeeps(s: Queue, g: Jid, st: Group)
    requires st.retryCount == Get(s, g).retryCount && st.retryTimer == Get(s, g).retryTimer
    requires st.retryScheduledAt == Get(s, g).retryScheduledAt
    ensures SameRetries(s, Put(s, g, st))
  {
  }

  lemma CheckMessagesKeeps(c: Limits, s: Queue, g: Jid, now: int)
    ensures SameRetries(s, CheckMessages(c, s, g, now))
  {
    hide StartMessages, EffectiveMax, Backoff, Put, SameRetries;
    var m := MarkPending(s, g);
    PutKeeps(s, g, Get(s, g).(pendingMessages := true));
    SameGroupsRetries(m, List(m, g));
    StartMessagesKeeps(s, g);
    Transitive(s, m, List(m, g));
  }

  lemma Transitive(s: Queue, r: Queue, t: Queue)
    requires SameRetries(s, r) && SameRetries(r, t)
    ensures SameRetries(s, t)
  {
  }

  lemma CheckKeeps(c: Limits, s: Queue, g: Jid, ipcDir: bool, now: int)
    ensures SameRetries(s, OnMessageCheck(c, s, g, ipcDir, now))
  {
    hide CheckMessages, Put;
    PutKeeps(s, g, Get(s, g).(hasIpcDir := Get(s, g).hasIpcDir || ipcDir));
    CheckMessagesKeeps(c, NoteIpc(s, g, ipcDir), g, now);
  }

  lemma QueueTaskKeeps(c: Limits, s: Queue, g: Jid, t: TaskId)
    ensures SameRetries(s, QueueTask(c, s, g, t))
  {
    hide StartTask, EffectiveMax, Put, SameRetries;
    var st, p := Get(s, g), Push(s, g, t);
    PutKeeps(s, g, st.(pendingTasks := st.pendingTasks + [t], pushed := st.pushed + [t]));
    SameGroupsRetries(p, List(p, g));
    StartTaskKeeps(s, g, t);
    Transitive(s, p, List(p, g));
  }

  lemma RequestKeeps(c: Limits, s: Queue, g: Jid, t: TaskId)
    ensures SameRetries(s, OnTaskRequest(c, s, g, t))
  {
    hide QueueTask, Duplicate, Put;
    PutKeeps(s, g, Get(s, g));
    SameGroupsRetries(Touch(s, g), Accept(Touch(s, g), g, t));
    QueueTaskKeeps(c, Accept(Touch(s, g), g, t), g, t);
  }

  lemma RecordsKeep(s: Queue, g: Jid, ipcDir: bool)
    ensures SameRetries(s, OnRegisterProcess(s, g, ipcDir)) && SameRetries(s, OnCloseStdin(s, g))
  {
    hide AssertReports;
  }

  lemma Powers(n: nat)
    requires n < |DELAYS|
    ensures BASE_RETRY_MS * Pow2(n) == DELAYS[n]
  {
    assert Pow2(0) == 1 && Pow2(1) == 2 && Pow2(2) == 4 && Pow2(3) == 8 && Pow2(4) == 16;
  }

  lemma EndedRetries(s: Queue, g: Jid, run: RunId, outcome: Outcome, now: int)
    requires RetryIn(s, g).failures <= |DELAYS|
    ensures forall h :: RetryIn(Ended(s, g, run, outcome, now), h)
                        == After(RetryIn(s, h), MessageRunEnds(g, run, outcome, now), h)
  {
    hide Pow2, EndMessages;
    var s1 := Put(s, g, AfterOutcome(Get(s, g), outcome, now));
    EndMessagesKeeps(s1, g, run);
    if RetryIn(s, g).failures < |DELAYS| {
      Powers(RetryIn(s, g).failures);
    }
  }

  lemma RetryFiresRetries(c: Limits, s: Queue, g: Jid, now: int)
    ensures forall h :: RetryIn(OnRetryFires(c, s, g, now), h) == After(RetryIn(s, h), RetryFires(g, now), h)
  {
    hide OnMessageCheck;
    CheckKeeps(c, Put(s, g, Get(s, g).(retryTimer := false, retryScheduledAt := None)), g, false, now);
  }

  lemma ShutdownRetries(s: Queue)
    ensures forall h :: RetryIn(OnShutdown(s), h) == After(RetryIn(s, h), Shutdown, h)
  {
    hide ShutdownReports;
  }

  ghost predicate AtMostFive(s: Queue) {
    forall g :: RetryIn(s, g).failures <= |DELAYS|
  }

  /** Every block does to the retries of every group what the event says. */
  lemma StepRetries(c: Limits, s: Queue, e: Event)
    requires Enabled(s, e) && AtMostFive(s)
    ensures forall g :: RetryIn(Step(c, s, e), g) == After(RetryIn(s, g), e, g)
    ensures AtMostFive(Step(c, s, e))
  {
    hide RetryIn, DrainWaiting, DrainGroup, Ended, EndTask, OnMessageCheck, OnTaskRequest, OnRetryFires,
         OnRegisterProcess, OnCloseStdin, OnShutdown;
    match e
    case SetHandler =>
      SameGroupsRetries(s, s.(handler := true));
      DrainWaitingKeeps(c, s.(handler := true));
    case RecoveryEnds =>
      SameGroupsRetries(s, s.(recoveryMode := false));
      DrainWaitingKeeps(c, s.(recoveryMode := false));
    case EnterRecovery => SameGroupsRetries(s, s.(recoveryMode := true));
    case MessageCheck(g, ipcDir, now) => CheckKeeps(c, s, g, ipcDir, now);
    case TaskRequest(g, t) => RequestKeeps(c, s, g, t);
    case RegisterProcess(g, ipcDir) => RecordsKeep(s, g, ipcDir);
    case CloseStdin(g) => RecordsKeep(s, g, false);
    case MessageRunEnds(g, run, outcome, now) =>
      EndedRetries(s, g, run, outcome, now);
      DrainGroupKeeps(c, Ended(s, g, run, outcome, now), g);
    case TaskRunEnds(g, t) =>
      EndTaskKeeps(s, g, t);
      DrainGroupKeeps(c, EndTask(s, g, t), g);
    case RetryFires(g, now) => RetryFiresRetries(c, s, g, now);
    case Shutdown => ShutdownRetries(s);
  }

  /** Over all histories the record says what the events say: its retry count is the number of failures in a
      row, a retry is due after the waiting time of that many, the sixth failure gives up, and a success
      leaves neither a count nor a backoff. */
  lemma {:induction false} RetriesFromHistory(c: Limits, es: seq<Event>, g: Jid)
    ensures RetryIn(Exec(c, EMPTY_QUEUE, es), g) == RetryOf(c, es, g)
  {
    AllRetries(c, es);
  }

  lemma {:induction false} AllRetries(c: Limits, es: seq<Event>)
    ensures AtMostFive(Exec(c, EMPTY_QUEUE, es))
    ensures forall g :: RetryIn(Exec(c, EMPTY_QUEUE, es), g) == RetryOf(c, es, g)
    decreases |es|
  {
    hide After, Step, Enabled;
    if es != [] {
      var p := Exec(c, EMPTY_QUEUE, es[..|es| - 1]);
      AllRetries(c, es[..|es| - 1]);
      if Enabled(p, es[|es| - 1]) {
        StepRetries(c, p, es[|es| - 1]);
      }
    }
  }

  /** The k-th failure of a group in a row is retried after the k-th waiting time, for k up to five; the
      sixth is not retried, and starts the count anew. */
  lemma FailureIsRetried(c: Limits, es: seq<Event>, g: Jid, run: RunId, outcome: Outcome, now: int)
    requires Enabled(Exec(c, EMPTY_QUEUE, es), MessageRunEnds(g, run, outcome, now)) && outcome != Success
    ensures var k := RetryOf(c, es, g).failures;
            var st := Get(Exec(c, EMPTY_QUEUE, es + [MessageRunEnds(g, run, outcome, now)]), g);
            && k <= 5
            && if k < 5 then st.retryTimer && st.retryScheduledAt == Some(now + DELAYS[k]) && st.retryCount == k + 1
               else !st.retryTimer && st.retryScheduledAt.None? && st.retryCount == 0
  {
    hide Exec, Enabled;
    var e := MessageRunEnds(g, run, outcome, now);
    AllRetries(c, es);
    AllRetries(c, es + [e]);
    assert RetryOf(c, es + [e], g) == After(RetryOf(c, es, g), e, g) by {
      assert (es + [e])[..|es|] == es;
    }
    assert RetryIn(Exec(c, EMPTY_QUEUE, es), g).failures <= |DELAYS|;
  }
}
