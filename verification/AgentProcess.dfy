/** The supervisor as the event handlers of one agent process; each handler is proved to do one step
    of the machine in Supervisor, to keep its invariant, and to take nothing back of how the run timed
    out, was closed or was resolved. */
module AgentProcess {
  import opened Basics
  import opened Supervisor

  class AgentRun {
    const limits: Limits
    const start: nat

    var now: nat
    var lastReset: nat
    var timeout: Option<nat>
    var hardTimeout: Option<nat>
    var killTimer: Option<nat>
    var termTimer: Option<nat>
    var postKillTimer: Option<nat>
    var resolveTimer: Option<nat>
    var closed: bool
    var timedOut: Option<Timeout>
    var scheduled: Option<nat>
    var hadStreamingOutput: bool
    var outputChain: seq<bool>
    var waiting: Option<Wait>
    var resolved: Option<Result>
    var signals: seq<Signal>
    var handled: nat

    ghost function View(): Process
      reads this
    {
      Process(now, start, lastReset,
              Timers(timeout, hardTimeout, killTimer, termTimer, postKillTimer, resolveTimer),
              closed, timedOut, scheduled, hadStreamingOutput, outputChain, waiting, resolved,
              signals, handled)
    }

    /** The timers stand where they should, and the run is settled as far as it is closed. */
    ghost predicate Valid()
      reads this
    {
      Inv(limits, View())
    }

    constructor (limits: Limits, start: nat)
      ensures Valid() && this.limits == limits && View() == Started(limits, start)
    {
      StartInv(limits, start);
      this.limits, this.start := limits, start;
      now, lastReset := start, start;
      timeout, hardTimeout := Some(start + limits.activity), Some(start + limits.hard);
      killTimer, termTimer, postKillTimer, resolveTimer := None, None, None, None;
      closed, timedOut, scheduled, hadStreamingOutput := false, None, None, false;
      outputChain, waiting, resolved, signals, handled := [], None, None, [], 0;
    }

    // ---- what the handlers share

    method ResetTimeout()
      modifies this
      ensures View() == Reset(limits, old(View()))
    {
      if timedOut.Some? || closed {
        return;
      }
      lastReset := now;
      timeout := Some(now + limits.activity);
    }

    method ClearProcessTimers()
      modifies this
      ensures View() == old(View()).(timers := NO_TIMERS)
    {
      timeout, hardTimeout, killTimer := None, None, None;
      termTimer, postKillTimer, resolveTimer := None, None, None;
    }

    method KillOnTimeout(kind: Kind)
      modifies this
      ensures View() == Supervisor.KillOnTimeout(limits, old(View()), kind)
    {
      if closed || timedOut.Some? {
        return;
      }
      timedOut := Some(Timeout(kind, now));
      signals := signals + [Term];
      killTimer := Some(now + limits.grace);
    }

    method Resolve(result: Result)
      modifies this
      ensures View() == Supervisor.Resolve(old(View()), result)
    {
      if resolved.None? {
        resolved := Some(result);
      }
    }

    method ResolveAfterDeliveries(result: Result)
      modifies this
      ensures View() == Later(old(View()), result)
    {
      if outputChain == [] {
        Resolve(result);
      } else if waiting.None? {
        waiting := Some(Wait(|outputChain|, result));
      }
    }

    method HandleProcessClose(code: Option<int>, signal: bool)
      modifies this
      ensures View() == HandleClose(limits, old(View()), code, signal)
    {
      hide Later, Supervisor.Resolve;
      if timedOut.Some? {
        if timedOut.value.kind == Hard {
          ResolveAfterDeliveries(Failure(HardTimeout));
        } else if hadStreamingOutput {
          ResolveAfterDeliveries(Success);
        } else {
          Resolve(Failure(ActivityTimeout));
        }
        return;
      }
      if code.None? && signal {
        if hadStreamingOutput {
          ResolveAfterDeliveries(Success);
        } else {
          ResolveAfterDeliveries(Failure(Signalled));
        }
        return;
      }
      if code != Some(0) {
        ResolveAfterDeliveries(Failure(ExitCode));
        return;
      }
      if limits.streaming {
        ResolveAfterDeliveries(Success);
        return;
      }
      Resolve(Legacy);
    }

    method FinishProcess(code: Option<int>, signal: bool)
      modifies this
      ensures View() == Finish(limits, old(View()), code, signal)
    {
      hide HandleClose;
      if closed {
        return;
      }
      closed := true;
      ClearProcessTimers();
      handled := handled + 1;
      HandleProcessClose(code, signal);
    }

    method SchedulePostTerminalCleanup()
      modifies this
      ensures View() == Schedule(limits, old(View()))
    {
      if closed || scheduled.Some? {
        return;
      }
      scheduled := Some(now);
      termTimer := Some(now + limits.post);
      postKillTimer := Some(now + 2 * limits.post);
      resolveTimer := Some(now + 3 * limits.post);
    }

    // ---- the handlers

    /** Time passes up to the next deadline. */
    method OnTimePasses(ms: nat)
      requires Valid() && Enabled(View(), Pass(ms))
      modifies this
      ensures View() == Step(limits, old(View()), Pass(ms))
      ensures Valid() && Kept(old(View()), View())
    {
      StepSafe(limits, View(), Pass(ms));
      now := now + ms;
    }

    /** The decoded outputs of one chunk. */
    method OnStdout(finals: seq<bool>)
      requires Valid()
      modifies this
      ensures View() == Step(limits, old(View()), Data(finals))
      ensures Valid() && Kept(old(View()), View())
    {
      StepSafe(limits, View(), Data(finals));
      hide OnOutput;
      if !limits.streaming {
        return;
      }
      assert finals[0..] == finals;
      for i := 0 to |finals|
        invariant OnData(limits, View(), finals[i..]) == OnData(limits, old(View()), finals)
      {
        assert finals[i..][0] == finals[i] && finals[i..][1..] == finals[i + 1..];
        OnStreamedOutput(finals[i]);
      }
      assert finals[|finals|..] == [];
    }

    method OnStreamedOutput(final: bool)
      modifies this
      ensures View() == OnOutput(limits, old(View()), final)
    {
      hadStreamingOutput := true;
      ResetTimeout();
      outputChain := outputChain + [final];
    }

    method OnStderr()
      requires Valid()
      modifies this
      ensures View() == Step(limits, old(View()), Stderr)
      ensures Valid() && Kept(old(View()), View())
    {
      StepSafe(limits, View(), Stderr);
      ResetTimeout();
    }

    /** The delivery at the head of the chain is done; it may have failed. */
    method OnDeliveryDone(ok: bool)
      requires Valid() && outputChain != []
      modifies this
      ensures View() == Step(limits, old(View()), Delivered(ok))
      ensures Valid() && Kept(old(View()), View())
    {
      StepSafe(limits, View(), Delivered(ok));
      hide Schedule;
      var final := outputChain[0];
      outputChain := outputChain[1..];
      if ok && final {
        SchedulePostTerminalCleanup();
      }
      if waiting.Some? {
        if waiting.value.ahead <= 1 {
          var result := waiting.value.result;
          waiting := None;
          Resolve(result);
        } else {
          waiting := Some(waiting.value.(ahead := waiting.value.ahead - 1));
        }
      }
    }

    method OnTimeout()
      requires Valid() && Enabled(View(), Fire(ActivityTimer))
      modifies this
      ensures View() == Step(limits, old(View()), Fire(ActivityTimer))
      ensures Valid() && Kept(old(View()), View())
    {
      StepSafe(limits, View(), Fire(ActivityTimer));
      timeout := None;
      KillOnTimeout(Activity);
    }

    method OnHardTimeout()
      requires Valid() && Enabled(View(), Fire(HardTimer))
      modifies this
      ensures View() == Step(limits, old(View()), Fire(HardTimer))
      ensures Valid() && Kept(old(View()), View())
    {
      StepSafe(limits, View(), Fire(HardTimer));
      hardTimeout := None;
      KillOnTimeout(Hard);
    }

    method OnKillTimer()
      requires Valid() && Enabled(View(), Fire(KillTimer))
      modifies this
      ensures View() == Step(limits, old(View()), Fire(KillTimer))
      ensures Valid() && Kept(old(View()), View())
    {
      StepSafe(limits, View(), Fire(KillTimer));
      killTimer := None;
      if !closed {
        signals := signals + [Kill];
      }
    }

    method OnTermTimer()
      requires Valid() && Enabled(View(), Fire(PostTerm))
      modifies this
      ensures View() == Step(limits, old(View()), Fire(PostTerm))
      ensures Valid() && Kept(old(View()), View())
    {
      StepSafe(limits, View(), Fire(PostTerm));
      termTimer := None;
      if !closed {
        signals := signals + [Term];
      }
    }

    method OnPostKillTimer()
      requires Valid() && Enabled(View(), Fire(PostKill))
      modifies this
      ensures View() == Step(limits, old(View()), Fire(PostKill))
      ensures Valid() && Kept(old(View()), View())
    {
      StepSafe(limits, View(), Fire(PostKill));
      postKillTimer := None;
      if !closed {
        signals := signals + [Kill];
      }
    }

    /** No exit event came: the run is released as if killed. */
    method OnResolveTimer()
      requires Valid() && Enabled(View(), Fire(PostRelease))
      modifies this
      ensures View() == Step(limits, old(View()), Fire(PostRelease))
      ensures Valid() && Kept(old(View()), View())
    {
      StepSafe(limits, View(), Fire(PostRelease));
      hide Finish;
      resolveTimer := None;
      FinishProcess(None, true);
    }

    method OnExit(code: Option<int>, signal: bool)
      requires Valid()
      modifies this
      ensures View() == Step(limits, old(View()), Exit(code, signal))
      ensures Valid() && Kept(old(View()), View())
    {
      StepSafe(limits, View(), Exit(code, signal));
      hide Finish;
      if limits.streaming && hadStreamingOutput {
        FinishProcess(code, signal);
      }
    }

    method OnClose(code: Option<int>, signal: bool)
      requires Valid()
      modifies this
      ensures View() == Step(limits, old(View()), Close(code, signal))
      ensures Valid() && Kept(old(View()), View())
    {
      StepSafe(limits, View(), Close(code, signal));
      hide Finish;
      FinishProcess(code, signal);
    }

    method OnError()
      requires Valid()
      modifies this
      ensures View() == Step(limits, old(View()), SpawnError)
      ensures Valid() && Kept(old(View()), View())
    {
      StepSafe(limits, View(), SpawnError);
      closed := true;
      ClearProcessTimers();
      Resolve(Failure(SpawnFailed));
    }
  }
}
