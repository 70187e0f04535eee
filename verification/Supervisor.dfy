/** The supervisor of one agent process as a machine over its events: streamed output, timers, exit
    and close events, and the queue of outputs being delivered. Time passes only while no armed timer
    is overdue. */
module Supervisor {
  import opened Basics

  // ---- state

  datatype Kind = Activity | Hard

  datatype Timeout = Timeout(kind: Kind, at: nat)

  datatype Cause = HardTimeout | ActivityTimeout | Signalled | ExitCode | SpawnFailed

  /** Legacy: whatever the captured standard output says. */
  datatype Result = Success | Failure(cause: Cause) | Legacy

  /** A resolution that takes effect after so many more deliveries. */
  datatype Wait = Wait(ahead: nat, result: Result)

  datatype Signal = Term | Kill

  datatype Limits = Limits(activity: nat, hard: nat, grace: nat, post: nat, streaming: bool)

  datatype TimerName = ActivityTimer | HardTimer | KillTimer | PostTerm | PostKill | PostRelease

  datatype Timers = Timers(
    activity: Option<nat>, hard: Option<nat>, kill: Option<nat>,
    term: Option<nat>, postKill: Option<nat>, release: Option<nat>)
  {
    function Due(x: TimerName): Option<nat> {
      match x
      case ActivityTimer => activity
      case HardTimer => hard
      case KillTimer => kill
      case PostTerm => term
      case PostKill => postKill
      case PostRelease => release
    }

    function Cleared(x: TimerName): Timers {
      match x
      case ActivityTimer => this.(activity := None)
      case HardTimer => this.(hard := None)
      case KillTimer => this.(kill := None)
      case PostTerm => this.(term := None)
      case PostKill => this.(postKill := None)
      case PostRelease => this.(release := None)
    }
  }

  const NO_TIMERS := Timers(None, None, None, None, None, None)

  /** chain holds the outputs waiting for their delivery (true for a terminal one), and `waiting` the
      resolution chained behind some of them. start, lastReset and the times in timedOut and scheduled
      are history; handled counts the calls of the close handler. */
  datatype Process = Process(
    now: nat, start: nat, lastReset: nat, timers: Timers,
    closed: bool, timedOut: Option<Timeout>, scheduled: Option<nat>,
    hadOutput: bool, chain: seq<bool>, waiting: Option<Wait>, resolved: Option<Result>,
    signals: seq<Signal>, handled: nat)

  function Started(l: Limits, start: nat): Process {
    Process(start, start, start,
            NO_TIMERS.(activity := Some(start + l.activity), hard := Some(start + l.hard)),
            false, None, None, false, [], None, None, [], 0)
  }

  // ---- events

  datatype Event =
    | Pass(ms: nat)
    | Fire(timer: TimerName)
    | Data(finals: seq<bool>)
    | Stderr
    | Delivered(ok: bool)
    | Exit(code: Option<int>, signal: bool)
    | Close(code: Option<int>, signal: bool)
    | SpawnError

  /** Output restarts the activity timer, unless the run is over or timed out. */
  function Reset(l: Limits, s: Process): Process {
    if s.timedOut.Some? || s.closed then s
    else s.(lastReset := s.now, timers := s.timers.(activity := Some(s.now + l.activity)))
  }

  function KillOnTimeout(l: Limits, s: Process, kind: Kind): Process {
    if s.closed || s.timedOut.Some? then s
    else s.(timedOut := Some(Timeout(kind, s.now)), signals := s.signals + [Term],
            timers := s.timers.(kill := Some(s.now + l.grace)))
  }

  function Resolve(s: Process, r: Result): Process {
    if s.resolved.None? then s.(resolved := Some(r)) else s
  }

  /** Resolves once the outputs chained so far are delivered. */
  function Later(s: Process, r: Result): Process {
    if s.chain == [] then Resolve(s, r)
    else if s.waiting.Some? then s
    else s.(waiting := Some(Wait(|s.chain|, r)))
  }

  /** One more delivery is done. */
  function Settle(s: Process): Process {
    match s.waiting
    case None => s
    case Some(w) =>
      if w.ahead <= 1 then Resolve(s.(waiting := None), w.result)
      else s.(waiting := Some(w.(ahead := w.ahead - 1)))
  }

  function HandleClose(l: Limits, s: Process, code: Option<int>, signal: bool): Process {
    match s.timedOut
    case Some(t) =>
      if t.kind == Hard then Later(s, Failure(HardTimeout))
      else if s.hadOutput then Later(s, Success)
      else Resolve(s, Failure(ActivityTimeout))
    case None =>
      if code.None? && signal then Later(s, if s.hadOutput then Success else Failure(Signalled))
      else if code != Some(0) then Later(s, Failure(ExitCode))
      else if l.streaming then Later(s, Success)
      else Resolve(s, Legacy)
  }

  function Finish(l: Limits, s: Process, code: Option<int>, signal: bool): Process {
    if s.closed then s
    else HandleClose(l, s.(closed := true, timers := NO_TIMERS, handled := s.handled + 1), code, signal)
  }

  /** A terminal output has been delivered: the process gets its time to exit. */
  function Schedule(l: Limits, s: Process): Process {
    if s.closed || s.scheduled.Some? then s
    else s.(scheduled := Some(s.now),
            timers := s.timers.(term := Some(s.now + l.post), postKill := Some(s.now + 2 * l.post),
                                release := Some(s.now + 3 * l.post)))
  }

  function OnData(l: Limits, s: Process, finals: seq<bool>): Process
    decreases |finals|
  {
    if finals == [] then s else OnData(l, OnOutput(l, s, finals[0]), finals[1..])
  }

  function OnOutput(l: Limits, s: Process, final: bool): Process {
    Reset(l, s.(hadOutput := true)).(chain := s.chain + [final])
  }

  function OnDelivered(l: Limits, s: Process, ok: bool): Process
    requires s.chain != []
  {
    var rest := s.(chain := s.chain[1..]);
    Settle(if ok && s.chain[0] then Schedule(l, rest) else rest)
  }

  function OnFire(l: Limits, s: Process, x: TimerName): Process {
    var s := s.(timers := s.timers.Cleared(x));
    match x
    case ActivityTimer => KillOnTimeout(l, s, Activity)
    case HardTimer => KillOnTimeout(l, s, Hard)
    case KillTimer => if s.closed then s else s.(signals := s.signals + [Kill])
    case PostTerm => if s.closed then s else s.(signals := s.signals + [Term])
    case PostKill => if s.closed then s else s.(signals := s.signals + [Kill])
    case PostRelease => Finish(l, s, None, true)
  }

  function OnSpawnError(s: Process): Process {
    Resolve(s.(closed := true, timers := NO_TIMERS), Failure(SpawnFailed))
  }

  predicate Enabled(s: Process, e: Event) {
    match e
    case Pass(ms) => forall x: TimerName :: NotOverdue(s.timers.Due(x), s.now + ms)
    case Fire(x) => s.timers.Due(x).Some? && s.timers.Due(x).value <= s.now
    case Delivered(_) => s.chain != []
    case _ => true
  }

  predicate NotOverdue(due: Option<nat>, t: nat) {
    due.Some? ==> t <= due.value
  }

  function Step(l: Limits, s: Process, e: Event): Process
    requires Enabled(s, e)
  {
    match e
    case Pass(ms) => s.(now := s.now + ms)
    case Fire(x) => OnFire(l, s, x)
    case Data(finals) => if l.streaming then OnData(l, s, finals) else s
    case Stderr => Reset(l, s)
    case Delivered(ok) => OnDelivered(l, s, ok)
    case Exit(code, signal) => if l.streaming && s.hadOutput then Finish(l, s, code, signal) else s
    case Close(code, signal) => Finish(l, s, code, signal)
    case SpawnError => OnSpawnError(s)
  }

  predicate Runs(l: Limits, s: Process, es: seq<Event>)
    decreases |es|
  {
    es == [] || (Enabled(s, es[0]) && Runs(l, Step(l, s, es[0]), es[1..]))
  }

  function Exec(l: Limits, s: Process, es: seq<Event>): Process
    requires Runs(l, s, es)
    decreases |es|
  {
    if es == [] then s else Exec(l, Step(l, s, es[0]), es[1..])
  }

  // ---- the invariant

  ghost predicate TimersInv(l: Limits, s: Process) {
    && (forall x: TimerName :: NotOverdue(s.timers.Due(x), s.now))
    && (s.closed ==> s.timers == NO_TIMERS)
    && s.start <= s.lastReset <= s.now
    && (!s.closed ==> TimeoutTimers(l, s) && CleanupTimers(l, s))
  }

  /** Until it fires, the hard timer stands where it was first set; the activity timer stands
      at the last sign of life. */
  ghost predicate TimeoutTimers(l: Limits, s: Process) {
    match s.timedOut
    case None =>
      && s.timers.hard == Some(s.start + l.hard)
      && s.timers.activity == Some(s.lastReset + l.activity)
      && s.timers.kill.None?
    case Some(t) =>
      && t.at <= s.now && Term in s.signals
      && (s.timers.kill == Some(t.at + l.grace) || Kill in s.signals)
  }

  ghost predicate CleanupTimers(l: Limits, s: Process) {
    match s.scheduled
    case None =>
      && s.timers.term.None? && s.timers.postKill.None? && s.timers.release.None?
      && s.signals == if s.timedOut.None? then [] else if s.timers.kill.Some? then [Term] else [Term, Kill]
    case Some(f) =>
      && f <= s.now
      && (s.timers.term == Some(f + l.post) || Term in s.signals)
      && (s.timers.postKill == Some(f + 2 * l.post) || Kill in s.signals)
      && s.timers.release == Some(f + 3 * l.post)
  }

  /** What may be resolved, or wait to be, given how the run timed out. */
  predicate Allowed(s: Process, r: Result) {
    match s.timedOut
    case None => r != Failure(HardTimeout) && r != Failure(ActivityTimeout)
    case Some(t) =>
      || r == Failure(SpawnFailed)
      || (t.kind == Hard && r == Failure(HardTimeout))
      || (t.kind == Activity && (r == Failure(ActivityTimeout) || (r == Success && s.hadOutput)))
  }

  predicate Settling(s: Process) {
    && s.handled <= (if s.closed then 1 else 0)
    && (s.closed <==> s.resolved.Some? || s.waiting.Some?)
    && (s.waiting.Some? ==> 1 <= s.waiting.value.ahead <= |s.chain| && Allowed(s, s.waiting.value.result))
    && (s.resolved.Some? ==> Allowed(s, s.resolved.value))
  }

  ghost predicate Inv(l: Limits, s: Process) {
    TimersInv(l, s) && Settling(s)
  }

  lemma ResetInv(l: Limits, s: Process)
    requires Inv(l, s)
    ensures Inv(l, Reset(l, s))
  {
    var t := Reset(l, s);
    forall x: TimerName ensures NotOverdue(t.timers.Due(x), t.now) {
      assert NotOverdue(s.timers.Due(x), s.now);
    }
  }

  lemma {:induction false} DataInv(l: Limits, s: Process, finals: seq<bool>)
    requires Inv(l, s)
    ensures Inv(l, OnData(l, s, finals))
    decreases |finals|
  {
    if finals != [] {
      ResetInv(l, s.(hadOutput := true));
      DataInv(l, OnOutput(l, s, finals[0]), finals[1..]);
    }
  }

  lemma FinishInv(l: Limits, s: Process, code: Option<int>, signal: bool)
    requires Settling(s) && !s.closed && s.start <= s.lastReset <= s.now
    ensures Inv(l, Finish(l, s, code, signal))
  {
    hide Settling, HandleClose;
    var closed := s.(closed := true, timers := NO_TIMERS, handled := s.handled + 1);
    HandleCloseSettles(l, s, code, signal);
    HandleCloseKeepsTimers(l, closed, code, signal);
  }

  lemma HandleCloseSettles(l: Limits, s: Process, code: Option<int>, signal: bool)
    requires Settling(s) && !s.closed
    ensures Settling(Finish(l, s, code, signal))
  {
  }

  lemma HandleCloseKeepsTimers(l: Limits, s: Process, code: Option<int>, signal: bool)
    ensures var t := HandleClose(l, s, code, signal);
            t == s.(waiting := t.waiting, resolved := t.resolved)
  {
  }

  /** A timeout that fires escalates at most once. */
  lemma FireTimeoutInv(l: Limits, s: Process, x: TimerName)
    requires Inv(l, s) && Enabled(s, Fire(x)) && !s.closed && (x.ActivityTimer? || x.HardTimer?)
    ensures TimersInv(l, OnFire(l, s, x))
  {
    hide Settling;
    var t := OnFire(l, s, x);
    forall y: TimerName ensures NotOverdue(t.timers.Due(y), t.now) {
      assert NotOverdue(s.timers.Due(y), s.now);
    }
  }

  lemma FireSignalInv(l: Limits, s: Process, x: TimerName)
    requires Inv(l, s) && Enabled(s, Fire(x)) && !s.closed
    requires x.KillTimer? || x.PostTerm? || x.PostKill?
    ensures TimersInv(l, OnFire(l, s, x))
  {
    hide Settling;
    var t := OnFire(l, s, x);
    forall y: TimerName ensures NotOverdue(t.timers.Due(y), t.now) {
      assert NotOverdue(s.timers.Due(y), s.now);
    }
  }

  lemma FireSettles(l: Limits, s: Process, x: TimerName)
    requires Settling(s) && !s.closed && !x.PostRelease?
    ensures Settling(OnFire(l, s, x))
  {
  }

  lemma FireInv(l: Limits, s: Process, x: TimerName)
    requires Inv(l, s) && Enabled(s, Fire(x))
    ensures Inv(l, OnFire(l, s, x))
  {
    hide Settling, TimeoutTimers, CleanupTimers, Finish;
    assert !s.closed;
    if x.PostRelease? {
      assert Settling(s.(timers := s.timers.Cleared(x))) by { SettlingIgnoresTimers(s, s.timers.Cleared(x)); }
      FinishInv(l, s.(timers := s.timers.Cleared(x)), None, true);
    } else if x.ActivityTimer? || x.HardTimer? {
      FireTimeoutInv(l, s, x);
      FireSettles(l, s, x);
    } else {
      FireSignalInv(l, s, x);
      FireSettles(l, s, x);
    }
  }

  lemma SettlingIgnoresTimers(s: Process, timers: Timers)
    ensures Settling(s.(timers := timers)) == Settling(s)
  {
  }

  lemma DeliveredInv(l: Limits, s: Process, ok: bool)
    requires Inv(l, s) && s.chain != []
    ensures Inv(l, OnDelivered(l, s, ok))
  {
    var t := OnDelivered(l, s, ok);
    forall x: TimerName ensures NotOverdue(t.timers.Due(x), t.now) {
      assert NotOverdue(s.timers.Due(x), s.now);
    }
  }

  lemma {:induction false} StepInv(l: Limits, s: Process, e: Event)
    requires Inv(l, s) && Enabled(s, e)
    ensures Inv(l, Step(l, s, e))
  {
    match e
    case Pass(ms) =>
    case Fire(x) => FireInv(l, s, x);
    case Data(finals) => DataInv(l, s, finals);
    case Stderr => ResetInv(l, s);
    case Delivered(ok) => DeliveredInv(l, s, ok);
    case Exit(code, signal) => if !s.closed { FinishInv(l, s, code, signal); }
    case Close(code, signal) => if !s.closed { FinishInv(l, s, code, signal); }
    case SpawnError =>
  }

  lemma {:induction false} ReachableInv(l: Limits, s: Process, es: seq<Event>)
    requires Inv(l, s) && Runs(l, s, es)
    ensures Inv(l, Exec(l, s, es))
    decreases |es|
  {
    hide Inv, Step, Enabled;
    if es != [] {
      StepInv(l, s, es[0]);
      ReachableInv(l, Step(l, s, es[0]), es[1..]);
    }
  }

  // ---- what no step changes

  lemma {:induction false} DataKeeps(l: Limits, s: Process, finals: seq<bool>)
    ensures var t := OnData(l, s, finals);
            t == s.(lastReset := t.lastReset, timers := t.timers, hadOutput := t.hadOutput, chain := t.chain)
    ensures s.closed || s.timedOut.Some? ==> OnData(l, s, finals).timers == s.timers
    decreases |finals|
  {
    if finals != [] {
      DataKeeps(l, OnOutput(l, s, finals[0]), finals[1..]);
    }
  }

  lemma {:induction false} DataChains(l: Limits, s: Process, finals: seq<bool>)
    ensures var t := OnData(l, s, finals);
            t.chain == s.chain + finals && t.hadOutput == (s.hadOutput || finals != [])
    decreases |finals|
  {
    if finals != [] {
      DataChains(l, OnOutput(l, s, finals[0]), finals[1..]);
      assert [finals[0]] + finals[1..] == finals;
    }
  }

  /** The past is kept: when the run started, how it timed out, when its clean-up was scheduled, how it
      was resolved, and that it is closed; and a closed run is sent no signal. */
  ghost predicate Kept(s: Process, t: Process) {
    && t.start == s.start && t.now >= s.now
    && (s.timedOut.Some? ==> t.timedOut == s.timedOut)
    && (s.scheduled.Some? ==> t.scheduled == s.scheduled)
    && (s.resolved.Some? ==> t.resolved == s.resolved)
    && (s.closed ==> t.closed && t.signals == s.signals && t.handled == s.handled
                     && t.timedOut == s.timedOut)
  }

  lemma StepKeeps(l: Limits, s: Process, e: Event)
    requires Enabled(s, e)
    ensures Kept(s, Step(l, s, e))
  {
    hide Finish, OnFire, OnData;
    match e
    case Data(finals) => DataKeeps(l, s, finals);
    case Fire(x) => FireKeeps(l, s, x);
    case Exit(code, signal) => FinishKeeps(l, s, code, signal);
    case Close(code, signal) => FinishKeeps(l, s, code, signal);
    case _ =>
  }

  lemma FinishKeeps(l: Limits, s: Process, code: Option<int>, signal: bool)
    ensures Kept(s, Finish(l, s, code, signal))
  {
  }

  lemma FireKeeps(l: Limits, s: Process, x: TimerName)
    ensures Kept(s, OnFire(l, s, x))
  {
    FinishKeeps(l, s.(timers := s.timers.Cleared(x)), None, true);
    hide Finish;
  }

  lemma StepSafe(l: Limits, s: Process, e: Event)
    requires Inv(l, s) && Enabled(s, e)
    ensures Inv(l, Step(l, s, e)) && Kept(s, Step(l, s, e))
  {
    hide *;
    StepInv(l, s, e);
    StepKeeps(l, s, e);
  }

  lemma {:induction false} RunKeeps(l: Limits, s: Process, es: seq<Event>)
    requires Runs(l, s, es)
    ensures Kept(s, Exec(l, s, es))
    decreases |es|
  {
    hide Step, Enabled;
    if es != [] {
      StepKeeps(l, s, es[0]);
      RunKeeps(l, Step(l, s, es[0]), es[1..]);
    }
  }

  // ---- the guarantees

  lemma StartInv(l: Limits, start: nat)
    ensures Inv(l, Started(l, start))
  {
  }

  lemma FromStart(l: Limits, start: nat, es: seq<Event>)
    requires Runs(l, Started(l, start), es)
    ensures Inv(l, Exec(l, Started(l, start), es)) && Exec(l, Started(l, start), es).start == start
  {
    hide Inv, Runs, Exec;
    StartInv(l, start);
    ReachableInv(l, Started(l, start), es);
    RunKeeps(l, Started(l, start), es);
  }

  /** No event moves the hard deadline: past it, the run is closed or timed out, whatever it printed.
      The same holds the activity limit past the last sign of life. */
  lemma HardDeadline(l: Limits, start: nat, es: seq<Event>)
    requires Runs(l, Started(l, start), es)
    ensures var s := Exec(l, Started(l, start), es);
            && (s.now > start + l.hard ==> s.closed || s.timedOut.Some?)
            && (s.now > s.lastReset + l.activity ==> s.closed || s.timedOut.Some?)
  {
    hide Runs, Exec, Started;
    FromStart(l, start, es);
    var s := Exec(l, Started(l, start), es);
    assert NotOverdue(s.timers.Due(HardTimer), s.now) && NotOverdue(s.timers.Due(ActivityTimer), s.now);
  }

  /** A run times out exactly at one of its two limits, and the timeout names the right one. */
  lemma TimesOutAtItsLimit(l: Limits, s: Process, e: Event)
    requires Inv(l, s) && Enabled(s, e)
    requires s.timedOut.None? && Step(l, s, e).timedOut.Some?
    ensures var t := Step(l, s, e).timedOut.value;
            && t.at == s.now && !s.closed
            && s.now == (if t.kind == Hard then s.start + l.hard else s.lastReset + l.activity)
  {
    assert NotOverdue(s.timers.Due(HardTimer), s.now) && NotOverdue(s.timers.Due(ActivityTimer), s.now);
    match e
    case Data(finals) => DataKeeps(l, s, finals);
    case _ =>
  }

  /** A hard timeout is for good, and the run never resolves as anything but an error. */
  lemma HardTimeoutNeverSucceeds(l: Limits, s: Process, es: seq<Event>)
    requires Inv(l, s) && Runs(l, s, es)
    requires s.timedOut.Some? && s.timedOut.value.kind == Hard
    ensures var t := Exec(l, s, es);
            && t.timedOut == s.timedOut
            && (t.resolved.Some? ==>
                  t.resolved == Some(Failure(HardTimeout)) || t.resolved == Some(Failure(SpawnFailed)))
  {
    hide Runs, Exec;
    ReachableInv(l, s, es);
    RunKeeps(l, s, es);
  }

  /** The end of a run counts as a success exactly when it was not a hard timeout, and either the run
      ended by itself with code 0 in streaming mode, or it was stopped after it had produced output. */
  lemma SucceedsExactlyWhen(l: Limits, s: Process, code: Option<int>, signal: bool)
    requires Inv(l, s) && !s.closed
    ensures var t := Finish(l, s, code, signal);
            && t.closed && t.handled == 1
            && (Verdict(t) == Success <==>
                  if s.timedOut.Some? then s.timedOut.value.kind == Activity && s.hadOutput
                  else if code.None? && signal then s.hadOutput
                  else code == Some(0) && l.streaming)
            && (Verdict(t) == Legacy <==> s.timedOut.None? && code == Some(0) && !l.streaming)
  {
  }

  /** How a closed run is, or is going to be, resolved. */
  function Verdict(s: Process): Result
    requires s.resolved.Some? || s.waiting.Some?
  {
    if s.resolved.Some? then s.resolved.value else s.waiting.value.result
  }

  /** The close handler runs at most once, and the first resolution stands. */
  lemma ClosesOnce(l: Limits, s: Process, es: seq<Event>)
    requires Inv(l, s) && Runs(l, s, es)
    ensures Exec(l, s, es).handled <= 1
    ensures s.closed ==> Exec(l, s, es).handled == s.handled && Exec(l, s, es).signals == s.signals
    ensures s.resolved.Some? ==> Exec(l, s, es).resolved == s.resolved
  {
    hide Runs, Exec;
    ReachableInv(l, s, es);
    RunKeeps(l, s, es);
  }

  /** Once a terminal output is delivered to a run that is still open, the run is closed at the latest
      three exit limits later; SIGTERM and SIGKILL come one and two limits later. */
  lemma ReleasedAfterTerminalOutput(l: Limits, s: Process, es: seq<Event>)
    requires Inv(l, s) && !s.closed && s.chain != [] && s.chain[0]
    requires Runs(l, OnDelivered(l, s, true), es)
    ensures var t := Exec(l, OnDelivered(l, s, true), es);
            && (t.now > s.now + l.post ==> t.closed || Term in t.signals)
            && (t.now > s.now + 2 * l.post ==> t.closed || Kill in t.signals)
            && (t.now > s.now + 3 * l.post ==> t.closed)
  {
    hide Runs, Exec, Allowed;
    DeliveredInv(l, s, true);
    var u := OnDelivered(l, s, true);
    assert u.scheduled.Some? && u.scheduled.value <= s.now;
    ReachableInv(l, u, es);
    RunKeeps(l, u, es);
    var t := Exec(l, u, es);
    assert NotOverdue(t.timers.Due(PostTerm), t.now) && NotOverdue(t.timers.Due(PostKill), t.now)
        && NotOverdue(t.timers.Due(PostRelease), t.now);
  }

  /** A timed-out run that stays open has been sent SIGTERM at once and SIGKILL after the grace time. */
  lemma TimeoutEscalates(l: Limits, s: Process)
    requires Inv(l, s) && !s.closed && s.timedOut.Some?
    ensures Term in s.signals
    ensures s.now > s.timedOut.value.at + l.grace ==> Kill in s.signals
  {
    assert NotOverdue(s.timers.Due(KillTimer), s.now);
  }

  function Deliveries(es: seq<Event>): nat {
    if es == [] then 0 else (if es[0].Delivered? then 1 else 0) + Deliveries(es[1..])
  }

  ghost predicate WaitsFor(s: Process, n: nat) {
    s.closed && (s.resolved.None? ==> s.waiting.Some? && s.waiting.value.ahead <= n)
  }

  lemma StepWaits(l: Limits, s: Process, e: Event, n: nat)
    requires Inv(l, s) && Enabled(s, e) && WaitsFor(s, n)
    ensures WaitsFor(Step(l, s, e), if e.Delivered? && n > 0 then n - 1 else n)
  {
    match e
    case Data(finals) => DataKeeps(l, s, finals);
    case _ =>
  }

  /** A closed run is resolved as soon as the outputs chained before its end are delivered. */
  lemma {:induction false} ResolvesAfterDeliveries(l: Limits, s: Process, es: seq<Event>, n: nat)
    requires Inv(l, s) && Runs(l, s, es) && WaitsFor(s, n) && Deliveries(es) >= n
    ensures Exec(l, s, es).resolved.Some?
    decreases |es|
  {
    hide Step, Enabled;
    if es != [] {
      StepInv(l, s, es[0]);
      StepWaits(l, s, es[0], n);
      ResolvesAfterDeliveries(l, Step(l, s, es[0]), es[1..], if es[0].Delivered? && n > 0 then n - 1 else n);
    }
  }

  lemma ClosedRunResolves(l: Limits, s: Process, es: seq<Event>)
    requires Inv(l, s) && s.closed && Runs(l, s, es) && Deliveries(es) >= |s.chain|
    ensures Exec(l, s, es).resolved.Some?
  {
    ResolvesAfterDeliveries(l, s, es, |s.chain|);
  }

  lemma Nothing(l: Limits, s: Process)
    ensures Runs(l, s, []) && Exec(l, s, []) == s
  {
  }

  lemma Prepend(l: Limits, s: Process, e: Event, es: seq<Event>) returns (r: seq<Event>)
    requires Enabled(s, e) && Runs(l, Step(l, s, e), es)
    ensures Runs(l, s, r) && Exec(l, s, r) == Exec(l, Step(l, s, e), es)
  {
    r := [e] + es;
    assert r[1..] == es;
  }

  // ---- when a run is bounded

  /** However the run goes on, it is closed once it is later than `until`. */
  ghost predicate ClosedAfter(l: Limits, s: Process, until: nat) {
    forall es :: Runs(l, s, es) && Exec(l, s, es).now > until ==> Exec(l, s, es).closed
  }

  function Count(due: Option<nat>): nat {
    if due.Some? then 1 else 0
  }

  /** How many of the timers that a run without terminal output has are armed. */
  function Armed(s: Process): nat {
    Count(s.timers.activity) + Count(s.timers.hard) + Count(s.timers.kill)
  }

  function Earlier(x: TimerName, y: TimerName, t: Timers): TimerName {
    if t.Due(x).None? || (t.Due(y).Some? && t.Due(y).value < t.Due(x).value) then y else x
  }

  /** The timer that is due first. */
  function NextTimer(t: Timers): TimerName {
    Earlier(ActivityTimer, Earlier(HardTimer, KillTimer, t), t)
  }

  /** Open, and no terminal output delivered. */
  ghost predicate Unscheduled(l: Limits, s: Process) {
    Inv(l, s) && !s.closed && s.scheduled.None?
  }

  /** The next timer can fire when its time has come, and leaves the run open. */
  lemma NextTimerFires(l: Limits, s: Process) returns (t: Process)
    requires Unscheduled(l, s) && Armed(s) > 0
    ensures var x := NextTimer(s.timers);
            && s.timers.Due(x).Some? && s.timers.Due(x).value >= s.now
            && Enabled(s, Pass(s.timers.Due(x).value - s.now))
            && Enabled(Step(l, s, Pass(s.timers.Due(x).value - s.now)), Fire(x))
            && t == Step(l, Step(l, s, Pass(s.timers.Due(x).value - s.now)), Fire(x))
    ensures Unscheduled(l, t)
    ensures t.timedOut.None? ==> s.timedOut.None? && Armed(t) < Armed(s)
    ensures t.timedOut.Some? && s.timedOut.Some? ==> Armed(t) < Armed(s)
  {
    var x := NextTimer(s.timers);
    assert NotOverdue(s.timers.Due(x), s.now);
    var ms := s.timers.Due(x).value - s.now;
    forall y: TimerName ensures NotOverdue(s.timers.Due(y), s.now + ms) {
    }
    StepInv(l, s, Pass(ms));
    var u := Step(l, s, Pass(ms));
    StepInv(l, u, Fire(x));
    t := Step(l, u, Fire(x));
  }

  /** Without a terminal output the run can outlast any time. */
  lemma {:induction false} Outlasts(l: Limits, s: Process, until: nat) returns (es: seq<Event>)
    requires Unscheduled(l, s)
    ensures Runs(l, s, es) && Exec(l, s, es).now > until && Unscheduled(l, Exec(l, s, es))
    decreases if s.timedOut.None? then 1 else 0, Armed(s)
  {
    hide Runs, Exec, Step, Inv, Enabled, NextTimer;
    if Armed(s) == 0 {
      es := [];
      PassFreely(l, s, until + 1);
      StepInv(l, s, Pass(until + 1));
      Nothing(l, Step(l, s, Pass(until + 1)));
      es := Prepend(l, s, Pass(until + 1), es);
    } else {
      var x := NextTimer(s.timers);
      var t := NextTimerFires(l, s);
      var ms := s.timers.Due(x).value - s.now;
      es := Outlasts(l, t, until);
      es := Prepend(l, Step(l, s, Pass(ms)), Fire(x), es);
      es := Prepend(l, s, Pass(ms), es);
    }
  }

  lemma PassFreely(l: Limits, s: Process, ms: nat)
    requires Unscheduled(l, s) && Armed(s) == 0
    ensures Enabled(s, Pass(ms)) && Step(l, s, Pass(ms)) == s.(now := s.now + ms)
  {
    forall y: TimerName ensures NotOverdue(s.timers.Due(y), s.now + ms) {
    }
  }

  /** Past its release time a run with a delivered terminal output is closed. */
  lemma ScheduledIsBounded(l: Limits, s: Process)
    requires Inv(l, s) && !s.closed && s.scheduled.Some?
    ensures ClosedAfter(l, s, s.scheduled.value + 3 * l.post)
  {
    hide Runs, Exec;
    var until := s.scheduled.value + 3 * l.post;
    forall es | Runs(l, s, es) && Exec(l, s, es).now > until ensures Exec(l, s, es).closed {
      ReachableInv(l, s, es);
      RunKeeps(l, s, es);
      var t := Exec(l, s, es);
      assert NotOverdue(t.timers.Due(PostRelease), t.now);
    }
  }

  /** The time an open run can still take is bounded exactly when a terminal output has been delivered:
      nothing else releases a process that ignores its signals. */
  lemma BoundedExactlyWhenScheduled(l: Limits, s: Process)
    requires Inv(l, s) && !s.closed
    ensures (exists until :: ClosedAfter(l, s, until)) <==> s.scheduled.Some?
  {
    hide Inv;
    if s.scheduled.Some? {
      ScheduledIsBounded(l, s);
    } else {
      forall until: nat ensures !ClosedAfter(l, s, until) {
        var es := Outlasts(l, s, until);
      }
    }
  }

  /** In particular from the start, for all limits: a run can be timed out, sent both signals, and be open
      at any later time. */
  lemma NeverReleasedWithoutTerminalOutput(l: Limits, wait: nat) returns (es: seq<Event>)
    ensures Runs(l, Started(l, 0), es)
    ensures var s := Exec(l, Started(l, 0), es);
            !s.closed && s.timedOut.Some? && s.signals == [Term, Kill] && s.now >= wait
  {
    hide Runs, Exec, Step, Inv;
    StartInv(l, 0);
    es := Outlasts(l, Started(l, 0), wait + l.hard + l.activity + l.grace);
    LateIsTimedOut(l, es, wait);
  }

  lemma LateIsTimedOut(l: Limits, es: seq<Event>, wait: nat)
    requires Runs(l, Started(l, 0), es) && Unscheduled(l, Exec(l, Started(l, 0), es))
    requires Exec(l, Started(l, 0), es).now > wait + l.hard + l.activity + l.grace
    ensures var s := Exec(l, Started(l, 0), es);
            s.timedOut.Some? && s.signals == [Term, Kill]
  {
    hide Runs, Exec;
    var s := Exec(l, Started(l, 0), es);
    FromStart(l, 0, es);
    HardDeadline(l, 0, es);
    TimedOutInTime(l, es);
    TimeoutEscalates(l, s);
  }

  /** A timeout does not come after the hard limit. */
  ghost predicate InTime(l: Limits, s: Process) {
    s.timedOut.Some? ==> s.timedOut.value.at <= s.start + l.hard
  }

  lemma StepInTime(l: Limits, s: Process, e: Event)
    requires Inv(l, s) && InTime(l, s) && Enabled(s, e)
    ensures InTime(l, Step(l, s, e))
  {
    hide Step, Settling, CleanupTimers;
    StepKeeps(l, s, e);
    if s.timedOut.None? && Step(l, s, e).timedOut.Some? {
      TimesOutAtItsLimit(l, s, e);
      assert NotOverdue(s.timers.Due(HardTimer), s.now);
    }
  }

  lemma {:induction false} RunInTime(l: Limits, s: Process, es: seq<Event>)
    requires Inv(l, s) && InTime(l, s) && Runs(l, s, es)
    ensures InTime(l, Exec(l, s, es))
    decreases |es|
  {
    hide Inv, InTime, Step, Enabled;
    if es != [] {
      StepInTime(l, s, es[0]);
      StepInv(l, s, es[0]);
      RunInTime(l, Step(l, s, es[0]), es[1..]);
    }
  }

  lemma TimedOutInTime(l: Limits, es: seq<Event>)
    requires Runs(l, Started(l, 0), es)
    ensures var s := Exec(l, Started(l, 0), es);
            s.start == 0 && (s.timedOut.Some? ==> s.timedOut.value.at <= l.hard)
  {
    hide Runs, Exec;
    StartInv(l, 0);
    RunInTime(l, Started(l, 0), es);
    FromStart(l, 0, es);
  }
}
