/** When a closed run is resolved: behind exactly the outputs that were chained before its end. */
module RunResolution {
  import opened Basics
  import opened Supervisor

  /** Only streamed output is chained. */
  predicate Chained(l: Limits, s: Process) {
    s.chain != [] ==> l.streaming && s.hadOutput
  }

  lemma FinishKeepsChain(l: Limits, s: Process, code: Option<int>, signal: bool)
    ensures var t := Finish(l, s, code, signal); t.chain == s.chain && t.hadOutput == s.hadOutput
  {
  }

  lemma StepChained(l: Limits, s: Process, e: Event)
    requires Chained(l, s) && Enabled(s, e)
    ensures Chained(l, Step(l, s, e))
  {
    hide Finish;
    match e
    case Data(finals) => DataChains(l, s, finals);
    case Fire(x) => FinishKeepsChain(l, s.(timers := s.timers.Cleared(x)), None, true);
    case Exit(code, signal) => FinishKeepsChain(l, s, code, signal);
    case Close(code, signal) => FinishKeepsChain(l, s, code, signal);
    case _ =>
  }

  lemma {:induction false} ReachableChained(l: Limits, s: Process, es: seq<Event>)
    requires Chained(l, s) && Runs(l, s, es)
    ensures Chained(l, Exec(l, s, es))
    decreases |es|
  {
    hide Chained, Step, Enabled;
    if es != [] {
      StepChained(l, s, es[0]);
      ReachableChained(l, Step(l, s, es[0]), es[1..]);
    }
  }

  /** Closed, and resolved exactly when n more deliveries are done. */
  predicate Behind(s: Process, n: nat) {
    && s.closed
    && if n == 0 then s.resolved.Some? && s.waiting.None?
       else s.resolved.None? && s.waiting.Some? && s.waiting.value.ahead == n
  }

  lemma FinishBehind(l: Limits, s: Process, code: Option<int>, signal: bool)
    requires Settling(s) && Chained(l, s) && !s.closed
    ensures Behind(Finish(l, s, code, signal), |s.chain|)
  {
  }

  /** However an open run is closed, short of a spawn error, its resolution takes its place behind the
      outputs that are chained by then. */
  lemma ClosesBehind(l: Limits, s: Process, e: Event)
    requires Inv(l, s) && Chained(l, s) && Enabled(s, e) && !e.SpawnError?
    requires !s.closed && Step(l, s, e).closed
    ensures Behind(Step(l, s, e), |s.chain|)
  {
    hide Settling, TimersInv, Finish;
    match e
    case Data(finals) => DataKeeps(l, s, finals);
    case Fire(x) =>
      SettlingIgnoresTimers(s, s.timers.Cleared(x));
      FinishBehind(l, s.(timers := s.timers.Cleared(x)), None, true);
    case Exit(code, signal) => FinishBehind(l, s, code, signal);
    case Close(code, signal) => FinishBehind(l, s, code, signal);
    case _ =>
  }

  lemma StepBehind(l: Limits, s: Process, e: Event, n: nat)
    requires Inv(l, s) && Enabled(s, e) && Behind(s, n) && !e.SpawnError?
    ensures Behind(Step(l, s, e), if e.Delivered? && n > 0 then n - 1 else n)
  {
    match e
    case Data(finals) => DataKeeps(l, s, finals);
    case _ =>
  }

  lemma {:induction false} ResolvesBehind(l: Limits, s: Process, es: seq<Event>, n: nat)
    requires Inv(l, s) && Runs(l, s, es) && Behind(s, n)
    ensures Exec(l, s, es).resolved.Some? <==> Deliveries(es) >= n || SpawnError in es
    decreases |es|
  {
    hide Inv, Step, Enabled, Kept;
    if es != [] {
      var t, rest := Step(l, s, es[0]), es[1..];
      assert SpawnError in es <==> es[0] == SpawnError || SpawnError in rest;
      StepInv(l, s, es[0]);
      if es[0] == SpawnError {
        SpawnErrorResolves(l, s);
        StaysResolved(l, t, rest);
      } else {
        StepBehind(l, s, es[0], n);
        ResolvesBehind(l, t, rest, if es[0].Delivered? && n > 0 then n - 1 else n);
      }
    }
  }

  lemma SpawnErrorResolves(l: Limits, s: Process)
    ensures Step(l, s, SpawnError).resolved.Some?
  {
  }

  lemma StaysResolved(l: Limits, s: Process, es: seq<Event>)
    requires Runs(l, s, es) && s.resolved.Some?
    ensures Exec(l, s, es).resolved == s.resolved
  {
    hide Runs, Exec;
    RunKeeps(l, s, es);
  }

  /** Over all histories: once a run is closed, other than by a spawn error, it is resolved exactly when the
      outputs chained before its end are all delivered, successfully or not, or a spawn error is reported.
      So nothing that was printed before the end is delivered after the result. */
  lemma ResolvedAfterItsOutputs(l: Limits, start: nat, es: seq<Event>, e: Event, more: seq<Event>)
    requires Runs(l, Started(l, start), es)
    requires var s := Exec(l, Started(l, start), es);
             && Enabled(s, e) && !e.SpawnError? && !s.closed && Step(l, s, e).closed
             && Runs(l, Step(l, s, e), more)
    ensures var s := Exec(l, Started(l, start), es);
            Exec(l, Step(l, s, e), more).resolved.Some?
            <==> Deliveries(more) >= |s.chain| || SpawnError in more
  {
    assert Chained(l, Started(l, start));
    hide *;
    var s := Exec(l, Started(l, start), es);
    FromStart(l, start, es);
    ReachableChained(l, Started(l, start), es);
    ClosesBehind(l, s, e);
    StepInv(l, s, e);
    ResolvesBehind(l, Step(l, s, e), more, |s.chain|);
  }
}
