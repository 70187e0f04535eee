/** The scheduler's atomic blocks as functions on values. JavaScript is single threaded, so
    each synchronous block runs without interruption; every event below is one such block. */
module QueueSteps {
  import opened Basics
  import opened QueueState

  const MAX_RETRIES := 5
  const BASE_RETRY_MS := 5000

  datatype Outcome = Success | Failed | Threw

  datatype Event =
    | SetHandler
    | EnterRecovery
    | RecoveryEnds
    | MessageCheck(g: Jid, ipcDir: bool, now: int)
    | TaskRequest(g: Jid, t: TaskId)
    | RegisterProcess(g: Jid, ipcDir: bool)
    | CloseStdin(g: Jid)
    | MessageRunEnds(g: Jid, run: RunId, outcome: Outcome, now: int)
    | TaskRunEnds(g: Jid, t: TaskId)
    | RetryFires(g: Jid, now: int)
    | Shutdown

  // ---- starting and ending runs

  function StartMessages(s: Queue, g: Jid): Queue {
    var st := Get(s, g);
    var st1 := st.(currentRunId := Some(s.nextRun), pendingMessages := false, runPhase := RunningMessages);
    Put(s, g, st1).(
    activeCount := s.activeCount + 1,
    nextRun := s.nextRun + 1,
    msgRuns := s.msgRuns + multiset{(g, s.nextRun)},
    reported := s.reported || TransitionReports(st.runPhase, RunningMessages) || AssertReports(st1))
  }

  function StartTask(s: Queue, g: Jid, t: TaskId): Queue {
    var st := Get(s, g);
    var st1 := st.(runningTaskId := Some(t), runPhase := RunningTask);
    Put(s, g, st1).(
    activeCount := s.activeCount + 1,
    activeTaskCount := s.activeTaskCount + 1,
    taskRuns := s.taskRuns + multiset{(g, t)},
    reported := s.reported || TransitionReports(st.runPhase, RunningTask) || AssertReports(st1))
  }

  /** Takes the oldest pending task of the group and starts it. */
  function StartQueued(s: Queue, g: Jid): Queue
    requires |Get(s, g).pendingTasks| > 0
  {
    var st := Get(s, g);
    var t := st.pendingTasks[0];
    StartTask(Put(s, g, st.(pendingTasks := st.pendingTasks[1..], shifted := st.shifted + [t])), g, t)
  }

  function EndMessages(s: Queue, g: Jid, run: RunId): Queue {
    var st := Get(s, g);
    Put(s, g, ResetRun(st)).(
    activeCount := s.activeCount - 1,
    msgRuns := s.msgRuns - multiset{(g, run)},
    reported := s.reported || TransitionReports(st.runPhase, Idle) || AssertReports(ResetRun(st)))
  }

  function EndTask(s: Queue, g: Jid, t: TaskId): Queue {
    var st := Get(s, g);
    Put(s, g, ResetRun(st)).(
    activeCount := s.activeCount - 1,
    activeTaskCount := s.activeTaskCount - 1,
    taskRuns := s.taskRuns - multiset{(g, t)},
    finished := s.finished + multiset{(g, t)},
    reported := s.reported || TransitionReports(st.runPhase, Idle) || AssertReports(ResetRun(st)))
  }

  function Pow2(n: nat): nat {
    if n == 0 then 1 else 2 * Pow2(n - 1)
  }

  function ScheduleRetry(st: Group, now: int): Group {
    if st.retryCount + 1 > MAX_RETRIES then
      st.(retryCount := 0, retryTimer := false, retryScheduledAt := None)
    else
      st.(retryCount := st.retryCount + 1, retryTimer := true,
      retryScheduledAt := Some(now + BASE_RETRY_MS * Pow2(st.retryCount)))
  }

  /** What the outcome of a message run does to the retry fields. */
  function AfterOutcome(st: Group, outcome: Outcome, now: int): Group {
    match outcome
    case Success => st.(retryCount := 0, retryScheduledAt := None)
    case Failed => ScheduleRetry(st, now)
    case Threw => ScheduleRetry(st, now)
  }

  // ---- draining

  /** First position from `i` on whose group has pending messages, or |waiting|. */
  function FirstMessage(s: Queue, i: nat): (k: nat)
    requires i <= |s.waiting|
    ensures i <= k <= |s.waiting|
    ensures k < |s.waiting| ==> Get(s, s.waiting[k]).pendingMessages
    ensures forall j :: i <= j < k ==> !Get(s, s.waiting[j]).pendingMessages
    decreases |s.waiting| - i
  {
    if i == |s.waiting| || Get(s, s.waiting[i]).pendingMessages then i else FirstMessage(s, i + 1)
  }

  predicate TaskReady(c: Limits, s: Queue, g: Jid) {
    |Get(s, g).pendingTasks| > 0 && s.activeTaskCount < c.MaxTasks()
  }

  /** First position from `i` on whose group has a task that may start, or |waiting|. */
  function FirstTask(c: Limits, s: Queue, i: nat): (k: nat)
    requires i <= |s.waiting|
    ensures i <= k <= |s.waiting|
    ensures k < |s.waiting| ==> TaskReady(c, s, s.waiting[k])
    ensures forall j :: i <= j < k ==> !TaskReady(c, s, s.waiting[j])
    decreases |s.waiting| - i
  {
    if i == |s.waiting| || TaskReady(c, s, s.waiting[i]) then i else FirstTask(c, s, i + 1)
  }

  function NextIndex(c: Limits, s: Queue): (k: nat)
    ensures k <= |s.waiting|
    ensures k < |s.waiting| ==> Get(s, s.waiting[k]).pendingMessages || TaskReady(c, s, s.waiting[k])
  {
    var m := FirstMessage(s, 0);
    if m < |s.waiting| then m else FirstTask(c, s, 0)
  }

  function Unlist(s: Queue, k: nat): Queue
    requires k < |s.waiting|
  {
    s.(waiting := s.waiting[..k] + s.waiting[k + 1..])
  }

  /** Draining leaves the mode flags alone. */
  predicate SameModes(s: Queue, r: Queue) {
    r.recoveryMode == s.recoveryMode && r.handler == s.handler && r.shuttingDown == s.shuttingDown
  }

  /** Starts waiting groups while a slot is free. */
  function DrainWaiting(c: Limits, s: Queue): (r: Queue)
    ensures SameModes(s, r)
    ensures |r.waiting| <= |s.waiting|
    decreases |s.waiting|, 0, 0
  {
    if |s.waiting| == 0 || s.activeCount >= EffectiveMax(c, s) then s
    else
      var k := NextIndex(c, s);
      if k == |s.waiting| then s
      else
        var g := s.waiting[k];
        var s1 := Unlist(s, k);
        if Get(s1, g).pendingMessages then DrainWaiting(c, RunForGroup(c, s1, g))
        else DrainWaiting(c, StartQueued(s1, g))
  }

  /** A message run. Without a handler nothing is awaited, so the run ends at once. */
  function RunForGroup(c: Limits, s: Queue, g: Jid): (r: Queue)
    ensures SameModes(s, r)
    ensures |r.waiting| <= |s.waiting|
    decreases |s.waiting|, 1, 1
  {
    var s1 := StartMessages(s, g);
    if s.handler then s1 else DrainGroup(c, EndMessages(s1, g, s.nextRun), g)
  }

  /** After a run of `g` ended: its own tasks, then its own messages, then the others. */
  function DrainGroup(c: Limits, s: Queue, g: Jid): (r: Queue)
    ensures SameModes(s, r)
    ensures |r.waiting| <= |s.waiting|
    decreases |s.waiting|, 1, if Get(s, g).pendingMessages then 2 else 0
  {
    if s.shuttingDown then s
    else if |Get(s, g).pendingTasks| > 0 then StartQueued(s, g)
    else if Get(s, g).pendingMessages then RunForGroup(c, s, g)
    else DrainWaiting(c, s)
  }

  // ---- events

  function List(s: Queue, g: Jid): Queue {
    if g in s.waiting then s else s.(waiting := s.waiting + [g])
  }

  function MarkPending(s: Queue, g: Jid): Queue {
    Put(s, g, Get(s, g).(pendingMessages := true))
  }

  /** Looking the group up and noting its IPC directory, if one is given. */
  function NoteIpc(s: Queue, g: Jid, ipcDir: bool): Queue {
    Put(s, g, Get(s, g).(hasIpcDir := Get(s, g).hasIpcDir || ipcDir))
  }

  predicate Backoff(st: Group, now: int) {
    st.retryScheduledAt.Some? && now < st.retryScheduledAt.value
  }

  /** A message check of a known group: queued behind its run, queued until there is a handler, left
      to the retry timer, queued for a slot, or started. */
  function CheckMessages(c: Limits, s: Queue, g: Jid, now: int): Queue {
    var st := Get(s, g);
    if st.runPhase != Idle then MarkPending(s, g)
    else if !s.handler then List(MarkPending(s, g), g)
    else if Backoff(st, now) then MarkPending(s, g)
    else if s.activeCount >= EffectiveMax(c, s) then List(MarkPending(s, g), g)
    else StartMessages(s, g)
  }

  function OnMessageCheck(c: Limits, s: Queue, g: Jid, ipcDir: bool, now: int): Queue {
    if s.shuttingDown then s else CheckMessages(c, NoteIpc(s, g, ipcDir), g, now)
  }

  function Push(s: Queue, g: Jid, t: TaskId): Queue {
    var st := Get(s, g);
    Put(s, g, st.(pendingTasks := st.pendingTasks + [t], pushed := st.pushed + [t]))
  }

  function Accept(s: Queue, g: Jid, t: TaskId): Queue {
    s.(accepted := s.accepted + multiset{(g, t)})
  }

  /** A task that is not a duplicate: queued behind the run, queued for a slot, or started. */
  function QueueTask(c: Limits, s: Queue, g: Jid, t: TaskId): Queue {
    if Get(s, g).runPhase != Idle then Push(s, g, t)
    else if s.activeCount >= EffectiveMax(c, s) || s.activeTaskCount >= c.MaxTasks() then
      List(Push(s, g, t), g)
    else StartTask(s, g, t)
  }

  predicate Duplicate(st: Group, t: TaskId) {
    st.runningTaskId == Some(t) || t in st.pendingTasks
  }

  function OnTaskRequest(c: Limits, s: Queue, g: Jid, t: TaskId): Queue {
    if s.shuttingDown then s
    else if Duplicate(Get(s, g), t) then Touch(s, g)
    else QueueTask(c, Accept(Touch(s, g), g, t), g, t)
  }

  /** Closing stdin of one group; shutdown does this to several groups at once. */
  function CloseGroup(st: Group): Group {
    if st.runPhase == Idle || !st.hasIpcDir then st
    else if st.runPhase == RunningMessages then st.(runPhase := ClosingMessages)
    else st
  }

  predicate CloseReports(st: Group) {
    st.runPhase == RunningMessages && st.hasIpcDir && AssertReports(CloseGroup(st))
  }

  function OnCloseStdin(s0: Queue, g: Jid): Queue {
    var s := Touch(s0, g);
    Put(s, g, CloseGroup(Get(s, g))).(reported := s.reported || CloseReports(Get(s, g)))
  }

  predicate ShutdownCloses(st: Group) {
    st.hasProcess && st.runPhase == RunningMessages && st.hasIpcDir
  }

  function ShutdownGroup(st: Group): Group {
    var st1 := st.(retryTimer := false, retryScheduledAt := None);
    if ShutdownCloses(st1) then CloseGroup(st1) else st1
  }

  predicate ShutdownReports(st: Group) {
    ShutdownCloses(st) && CloseReports(st)
  }

  function OnShutdown(s: Queue): Queue {
    s.(shuttingDown := true,
    groups := map g | g in s.groups :: ShutdownGroup(s.groups[g]),
    reported := s.reported || exists g :: g in s.groups && ShutdownReports(s.groups[g]))
  }

  /** A message run that has ended, before anything is drained. */
  function Ended(s: Queue, g: Jid, run: RunId, outcome: Outcome, now: int): Queue {
    EndMessages(Put(s, g, AfterOutcome(Get(s, g), outcome, now)), g, run)
  }

  function OnMessageRunEnds(c: Limits, s: Queue, g: Jid, run: RunId, outcome: Outcome, now: int): Queue {
    DrainGroup(c, Ended(s, g, run, outcome, now), g)
  }

  function OnTaskRunEnds(c: Limits, s: Queue, g: Jid, t: TaskId): Queue {
    DrainGroup(c, EndTask(s, g, t), g)
  }

  function OnRetryFires(c: Limits, s: Queue, g: Jid, now: int): Queue {
    var s1 := Put(s, g, Get(s, g).(retryTimer := false, retryScheduledAt := None));
    if s1.shuttingDown then s1 else OnMessageCheck(c, s1, g, false, now)
  }

  function OnRegisterProcess(s0: Queue, g: Jid, ipcDir: bool): Queue {
    var s := Touch(s0, g);
    var st := Get(s, g);
    Put(s, g, st.(hasProcess := true, hasIpcDir := st.hasIpcDir || ipcDir))
  }

  /** A run can end only while it is in flight, a retry timer can fire only while armed. */
  predicate Enabled(s: Queue, e: Event) {
    match e
    case MessageRunEnds(g, run, _, _) => (g, run) in s.msgRuns
    case TaskRunEnds(g, t) => (g, t) in s.taskRuns
    case RetryFires(g, _) => Get(s, g).retryTimer
    case _ => true
  }

  function Step(c: Limits, s: Queue, e: Event): Queue
    requires Enabled(s, e)
  {
    match e
    case SetHandler => DrainWaiting(c, s.(handler := true))
    case EnterRecovery => s.(recoveryMode := true)
    case RecoveryEnds => DrainWaiting(c, s.(recoveryMode := false))
    case MessageCheck(g, ipcDir, now) => OnMessageCheck(c, s, g, ipcDir, now)
    case TaskRequest(g, t) => OnTaskRequest(c, s, g, t)
    case RegisterProcess(g, ipcDir) => OnRegisterProcess(s, g, ipcDir)
    case CloseStdin(g) => OnCloseStdin(s, g)
    case MessageRunEnds(g, run, outcome, now) => OnMessageRunEnds(c, s, g, run, outcome, now)
    case TaskRunEnds(g, t) => OnTaskRunEnds(c, s, g, t)
    case RetryFires(g, now) => OnRetryFires(c, s, g, now)
    case Shutdown => OnShutdown(s)
  }

  /** Every run of the scheduler: a list of events, those not enabled being impossible and skipped. */
  function Exec(c: Limits, s: Queue, es: seq<Event>): Queue
    decreases |es|
  {
    if es == [] then s
    else
      var p := Exec(c, s, es[..|es| - 1]);
      var e := es[|es| - 1];
      if Enabled(p, e) then Step(c, p, e) else p
  }
}
