/** What the events alone tell of a run: when it last gave a sign of life, whether it has produced output,
    which outputs wait for their delivery, how it timed out, which signals it was sent, whether it is over,
    and with which result. The supervisor is proved to agree with it in every run. */
module RunTimeline {
  import opened Basics
  import opened Supervisor
  import opened RunResolution

  /** sign is the time of the last sign of life; `due` the result of a run that is over, with the number of
      deliveries it is still behind. */
  datatype Timeline = Timeline(
    now: nat, sign: nat, output: bool, waiting: seq<bool>, over: bool,
    timeout: Option<Timeout>, terminal: Option<nat>, signals: seq<Signal>,
    due: Option<Wait>, result: Option<Result>)

  function Beginning(start: nat): Timeline {
    Timeline(start, start, false, [], false, None, None, [], None, None)
  }

  /** Only an open run that has not timed out gives signs of life. */
  predicate Alive(t: Timeline) {
    !t.over && t.timeout.None?
  }

  function Sign(t: Timeline): Timeline {
    if Alive(t) then t.(sign := t.now) else t
  }

  function TimesOut(t: Timeline, kind: Kind): Timeline {
    if Alive(t) then t.(timeout := Some(Timeout(kind, t.now)), signals := t.signals + [Term]) else t
  }

  function Sent(t: Timeline, signal: Signal): Timeline {
    if t.over then t else t.(signals := t.signals + [signal])
  }

  /** The first successful delivery of a terminal output to an open run is noted. */
  function DeliversOne(t: Timeline, ok: bool): Timeline {
    if t.waiting == [] then t
    else
      var first := ok && t.waiting[0] && !t.over && t.terminal.None?;
      Counted(t.(waiting := t.waiting[1..], terminal := if first then Some(t.now) else t.terminal))
  }

  /** A result that is due takes effect with the last of the deliveries before it. */
  function Counted(t: Timeline): Timeline {
    match t.due
    case Some(Wait(ahead, result)) =>
      if ahead > 1 then t.(due := Some(Wait(ahead - 1, result)))
      else t.(due := None, result := First(t.result, result))
    case None => t
  }

  function First(earlier: Option<Result>, r: Result): Option<Result> {
    if earlier.Some? then earlier else Some(r)
  }

  /** The run was ended from outside, before it could end by itself. */
  predicate Stopped(t: Timeline, code: Option<int>, signal: bool) {
    if t.timeout.Some? then t.timeout.value.kind == Activity else code.None? && signal
  }

  /** A run that was stopped after output has done its work; a hard timeout and a bad exit code are failures. */
  function Ruling(l: Limits, t: Timeline, code: Option<int>, signal: bool): Result {
    if Stopped(t, code, signal) && t.output then Success
    else if t.timeout.Some? then Failure(if t.timeout.value.kind == Hard then HardTimeout else ActivityTimeout)
    else if Stopped(t, code, signal) then Failure(Signalled)
    else if code != Some(0) then Failure(ExitCode)
    else if l.streaming then Success else Legacy
  }

  /** The end of an open run: its result takes its place behind the outputs that wait. */
  function Ends(l: Limits, t: Timeline, code: Option<int>, signal: bool): Timeline {
    if t.over then t
    else
      var r := Ruling(l, t, code, signal);
      if t.waiting == [] then t.(over := true, result := Some(r))
      else t.(over := true, due := Some(Wait(|t.waiting|, r)))
  }

  function After(l: Limits, t: Timeline, e: Event): Timeline {
    match e
    case Pass(ms) => t.(now := t.now + ms)
    case Data(finals) =>
      if l.streaming && finals != [] then Sign(t).(output := true, waiting := t.waiting + finals) else t
    case Stderr => Sign(t)
    case Delivered(ok) => DeliversOne(t, ok)
    case Fire(x) =>
      (match x
       case ActivityTimer => TimesOut(t, Activity)
       case HardTimer => TimesOut(t, Hard)
       case KillTimer => Sent(t, Kill)
       case PostTerm => Sent(t, Term)
       case PostKill => Sent(t, Kill)
       case PostRelease => Ends(l, t, None, true))
    case Exit(code, signal) => if l.streaming && t.output then Ends(l, t, code, signal) else t
    case Close(code, signal) => Ends(l, t, code, signal)
    case SpawnError => t.(over := true, result := First(t.result, Failure(SpawnFailed)))
  }

  function Told(l: Limits, t: Timeline, es: seq<Event>): Timeline
    decreases |es|
  {
    if es == [] then t else Told(l, After(l, t, es[0]), es[1..])
  }

  function Seen(s: Process): Timeline {
    Timeline(s.now, s.lastReset, s.hadOutput, s.chain, s.closed, s.timedOut, s.scheduled, s.signals,
             s.waiting, s.resolved)
  }

  // ---- steps

  lemma ResetSeen(l: Limits, s: Process)
    ensures Seen(Reset(l, s)) == Sign(Seen(s))
  {
  }

  lemma {:induction false} DataSeen(l: Limits, s: Process, finals: seq<bool>)
    ensures Seen(OnData(l, s, finals))
         == if finals == [] then Seen(s) else Sign(Seen(s)).(output := true, waiting := s.chain + finals)
    decreases |finals|
  {
    if finals != [] {
      var t := OnOutput(l, s, finals[0]);
      ResetSeen(l, s.(hadOutput := true));
      DataSeen(l, t, finals[1..]);
      assert s.chain + finals == t.chain + finals[1..];
    }
  }

  lemma FinishSeen(l: Limits, s: Process, code: Option<int>, signal: bool)
    requires Settling(s) && Chained(l, s)
    ensures Seen(Finish(l, s, code, signal)) == Ends(l, Seen(s), code, signal)
  {
  }

  lemma FireSeen(l: Limits, s: Process, x: TimerName)
    requires Settling(s) && Chained(l, s)
    ensures Seen(OnFire(l, s, x)) == After(l, Seen(s), Fire(x))
  {
    hide Finish, Settling, Ends;
    SettlingIgnoresTimers(s, s.timers.Cleared(x));
    FinishSeen(l, s.(timers := s.timers.Cleared(x)), None, true);
  }

  lemma DeliveredSeen(l: Limits, s: Process, ok: bool)
    requires Settling(s) && s.chain != []
    ensures Seen(OnDelivered(l, s, ok)) == DeliversOne(Seen(s), ok)
  {
  }

  lemma StepSeen(l: Limits, s: Process, e: Event)
    requires Inv(l, s) && Chained(l, s) && Enabled(s, e)
    ensures Seen(Step(l, s, e)) == After(l, Seen(s), e)
  {
    hide OnData, OnFire, OnDelivered, Finish, Settling, TimersInv, Chained, Ends, DeliversOne;
    match e
    case Pass(_) =>
    case Fire(x) => FireSeen(l, s, x);
    case Data(finals) => DataSeen(l, s, finals);
    case Stderr => ResetSeen(l, s);
    case Delivered(ok) => DeliveredSeen(l, s, ok);
    case Exit(code, signal) => FinishSeen(l, s, code, signal);
    case Close(code, signal) => FinishSeen(l, s, code, signal);
    case SpawnError =>
  }

  lemma {:induction false} RunSeen(l: Limits, s: Process, es: seq<Event>)
    requires Inv(l, s) && Chained(l, s) && Runs(l, s, es)
    ensures Seen(Exec(l, s, es)) == Told(l, Seen(s), es)
    decreases |es|
  {
    hide Inv, Chained, Seen, After, Step, Enabled;
    if es != [] {
      StepSeen(l, s, es[0]);
      StepInv(l, s, es[0]);
      StepChained(l, s, es[0]);
      RunSeen(l, Step(l, s, es[0]), es[1..]);
    }
  }

  /** In every run the supervisor has seen what the events tell, up to the result it ends with; and while the run
      is open and has not timed out, its activity timer stands one activity limit after the last sign of life, and
      its hard timer one hard limit after the start. */
  lemma SeenAsTold(l: Limits, start: nat, es: seq<Event>)
    requires Runs(l, Started(l, start), es)
    ensures var s, t := Exec(l, Started(l, start), es), Told(l, Beginning(start), es);
            && Seen(s) == t
            && (Alive(t) ==> s.timers.activity == Some(t.sign + l.activity) && s.timers.hard == Some(start + l.hard))
            && (t.terminal.Some? && !t.over ==> s.timers.release == Some(t.terminal.value + 3 * l.post))
  {
    assert Seen(Started(l, start)) == Beginning(start) && Chained(l, Started(l, start));
    hide Runs, Exec, Told, Settling, Started, Chained;
    FromStart(l, start, es);
    StartInv(l, start);
    RunSeen(l, Started(l, start), es);
  }

  /** A run that keeps giving signs of life is not timed out for silence: the activity timer can fire only one
      limit after the last of them. */
  lemma SilenceTimesOut(l: Limits, start: nat, es: seq<Event>)
    requires Runs(l, Started(l, start), es)
    requires Alive(Told(l, Beginning(start), es))
    ensures var t := Told(l, Beginning(start), es);
            Enabled(Exec(l, Started(l, start), es), Fire(ActivityTimer)) <==> t.now == t.sign + l.activity
  {
    hide Runs, Exec, Told, Settling, Started;
    SeenAsTold(l, start, es);
    FromStart(l, start, es);
    var s := Exec(l, Started(l, start), es);
    assert NotOverdue(s.timers.Due(ActivityTimer), s.now);
  }

  /** Some event carries streamed output. */
  ghost predicate Streams(es: seq<Event>) {
    exists e :: e in es && e.Data? && e.finals != []
  }

  lemma {:induction false} OutputTold(l: Limits, t: Timeline, es: seq<Event>)
    ensures Told(l, t, es).output <==> t.output || (l.streaming && Streams(es))
    decreases |es|
  {
    hide Told;
    if es == [] {
      assert Told(l, t, es) == t by { ToldNothing(l, t); }
    } else {
      ToldNext(l, t, es);
      OutputTold(l, After(l, t, es[0]), es[1..]);
      assert Streams(es) <==> (es[0].Data? && es[0].finals != []) || Streams(es[1..]) by { StreamsNext(es); }
    }
  }

  lemma ToldNothing(l: Limits, t: Timeline)
    ensures Told(l, t, []) == t
  {
  }

  lemma ToldNext(l: Limits, t: Timeline, es: seq<Event>)
    requires es != []
    ensures Told(l, t, es) == Told(l, After(l, t, es[0]), es[1..])
  {
  }

  lemma StreamsNext(es: seq<Event>)
    requires es != []
    ensures Streams(es) <==> (es[0].Data? && es[0].finals != []) || Streams(es[1..])
  {
    assert forall e :: e in es <==> e == es[0] || e in es[1..];
  }

  /** An exit event closes an open run exactly when the run is streaming and some output has come before it;
      a close event always does. */
  lemma ExitClosesExactly(l: Limits, start: nat, es: seq<Event>, code: Option<int>, signal: bool)
    requires Runs(l, Started(l, start), es) && !Exec(l, Started(l, start), es).closed
    ensures var s := Exec(l, Started(l, start), es);
            && (Step(l, s, Exit(code, signal)).closed <==> l.streaming && Streams(es))
            && Step(l, s, Close(code, signal)).closed
  {
    assert Seen(Started(l, start)) == Beginning(start) && Chained(l, Started(l, start));
    hide Runs, Exec, Told, Streams, Started, Inv, Chained;
    StartInv(l, start);
    FromStart(l, start, es);
    ReachableChained(l, Started(l, start), es);
    var s := Exec(l, Started(l, start), es);
    RunSeen(l, Started(l, start), es);
    OutputTold(l, Beginning(start), es);
    StepSeen(l, s, Exit(code, signal));
    StepSeen(l, s, Close(code, signal));
    hide Step;
  }
}
