/** The values behind the group scheduler: what one group's record and the whole queue
    look like between two JavaScript turns, and the run-phase rules. */
module QueueState {
  import opened Basics

  type Jid = string
  type TaskId = string
  type RunId = nat

  datatype RunPhase = Idle | RunningMessages | RunningTask | ClosingMessages

  /** One group's record. `retryTimer` says whether the retry timer is armed. The last two
      fields are history: every task id ever pushed on, and ever shifted off, `pendingTasks`. */
  datatype Group = Group(
    runPhase: RunPhase,
    runningTaskId: Option<TaskId>,
    currentRunId: Option<RunId>,
    pendingMessages: bool,
    pendingTasks: seq<TaskId>,
    retryCount: nat,
    retryTimer: bool,
    retryScheduledAt: Option<int>,
    hasProcess: bool,
    hasIpcDir: bool,
    pushed: seq<TaskId>,
    shifted: seq<TaskId>
  )

  const FRESH_GROUP := Group(Idle, None, None, false, [], 0, false, None, false, false, [], [])

  /** The configured pool sizes. The repository only guarantees 1 <= maxAgents. */
  datatype Limits = Limits(maxAgents: int, recoveryAgents: int) {
    function MaxTasks(): int {
      if maxAgents > 1 then maxAgents - 1 else 1
    }
  }

  /** The whole queue. From `nextRun` on the fields are history: the serial number of the next
      run id, the runs in flight, the tasks ever accepted, the tasks finished, and whether the
      phase checks ever logged an error. */
  datatype Queue = Queue(
    groups: map<Jid, Group>,
    activeCount: int,
    activeTaskCount: int,
    waiting: seq<Jid>,
    recoveryMode: bool,
    handler: bool,
    shuttingDown: bool,
    nextRun: nat,
    msgRuns: multiset<(Jid, RunId)>,
    taskRuns: multiset<(Jid, TaskId)>,
    accepted: multiset<(Jid, TaskId)>,
    finished: multiset<(Jid, TaskId)>,
    reported: bool
  )

  const EMPTY_QUEUE := Queue(map[], 0, 0, [], false, false, false, 0,
                             multiset{}, multiset{}, multiset{}, multiset{}, false)

  function Get(s: Queue, g: Jid): Group {
    if g in s.groups then s.groups[g] else FRESH_GROUP
  }

  function Put(s: Queue, g: Jid, st: Group): Queue {
    s.(groups := s.groups[g := st])
  }

  /** What looking a group up does: an unknown group gets a fresh record. */
  function Touch(s: Queue, g: Jid): Queue {
    Put(s, g, Get(s, g))
  }

  function EffectiveMax(c: Limits, s: Queue): int {
    if s.recoveryMode then c.recoveryAgents else c.maxAgents
  }

  predicate ValidTransition(from: RunPhase, to: RunPhase) {
    match from
    case Idle => to == RunningMessages || to == RunningTask
    case RunningMessages => to == ClosingMessages || to == Idle
    case ClosingMessages => to == Idle
    case RunningTask => to == Idle
  }

  /** Changing the phase logs an error exactly when the change is not in the table. */
  predicate TransitionReports(from: RunPhase, to: RunPhase) {
    from != to && !ValidTransition(from, to)
  }

  /** When the phase check logs an error. */
  predicate AssertReports(st: Group) {
    match st.runPhase
    case Idle => st.currentRunId.Some? || st.runningTaskId.Some? || st.hasProcess
    case RunningMessages => st.currentRunId.None? || st.runningTaskId.Some?
    case ClosingMessages => st.currentRunId.None? || st.runningTaskId.Some?
    case RunningTask => st.runningTaskId.None? || st.currentRunId.Some?
  }

  /** The record after the run-state reset. */
  function ResetRun(st: Group): Group {
    st.(runPhase := Idle, currentRunId := None, runningTaskId := None, hasProcess := false, hasIpcDir := false)
  }
}
