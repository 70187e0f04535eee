/** The supervised process together with its output: what the timers and the deliveries see is what the
    frames of the text received so far decode to. */
module AgentHost {
  import opened Basics
  import FrameParser
  import AgentStream
  import Supervisor
  import AgentProcess

  /** Which of the outputs are terminal. */
  function Finals(outs: seq<AgentStream.Output>): (fs: seq<bool>)
    ensures |fs| == |outs| && forall k :: 0 <= k < |outs| ==> fs[k] == outs[k].final
  {
    seq(|outs|, k requires 0 <= k < |outs| => outs[k].final)
  }

  lemma FinalsFrom(before: seq<AgentStream.Output>, after: seq<AgentStream.Output>, n: nat)
    requires before <= after && n <= |before|
    ensures Finals(before)[n..] + Finals(after[|before|..]) == Finals(after)[n..]
  {
  }

  /** One of the first n outputs is terminal. */
  ghost predicate TerminalAmong(outs: seq<AgentStream.Output>, n: nat) {
    exists k :: 0 <= k < n && k < |outs| && outs[k].final
  }

  /** A delivery takes the first waiting output, and schedules the clean-up only if that is terminal. */
  lemma DeliveredChain(l: Supervisor.Limits, s: Supervisor.Process, ok: bool)
    requires s.chain != []
    ensures var t := Supervisor.OnDelivered(l, s, ok);
            && t.chain == s.chain[1..] && t.hadOutput == s.hadOutput
            && (t.scheduled.Some? ==> s.scheduled.Some? || s.chain[0])
  {
  }

  class Host {
    const stream: AgentStream.Stream
    const run: AgentProcess.AgentRun

    /** How many outputs have had their delivery. */
    ghost var delivered: nat

    /** The outputs still to be delivered are the last ones decoded, and only the delivery of a terminal
        one schedules the clean-up. */
    ghost predicate Valid()
      reads this, stream, run
    {
      && stream.Valid() && run.Valid() && Linked()
    }

    ghost predicate Linked()
      reads this, stream, run
    {
      && stream.streaming == run.limits.streaming
      && run.hadStreamingOutput == stream.hadStreamingOutput
      && delivered <= |stream.deliveries|
      && run.outputChain == Finals(stream.deliveries)[delivered..]
      && (run.scheduled.Some? ==> TerminalAmong(stream.deliveries, delivered))
    }

    constructor (stream: AgentStream.Stream, run: AgentProcess.AgentRun)
      requires stream.Valid() && stream.out == "" && stream.deliveries == []
      requires run.Valid() && run.View() == Supervisor.Started(run.limits, run.start)
      requires stream.streaming == run.limits.streaming
      ensures Valid() && this.stream == stream && this.run == run
    {
      this.stream, this.run := stream, run;
      delivered := 0;
    }

    /** A chunk on the standard output. Each output completed by it restarts the activity timer and is
        chained for its delivery. */
    method OnStdoutData(chunk: string)
      requires Valid()
      modifies stream, run
      ensures Valid() && delivered == old(delivered)
      ensures stream.out == old(stream.out) + chunk
      ensures old(stream.deliveries) <= stream.deliveries
      ensures run.View() == Supervisor.Step(run.limits, old(run.View()),
                                            Supervisor.Data(Finals(stream.deliveries[|old(stream.deliveries)|..])))
    {
      hide Supervisor.Inv, Supervisor.OnData, Supervisor.Kept, Finals;
      var known := |stream.deliveries|;
      ghost var before, was := stream.deliveries, run.View();
      stream.OnStdout(chunk);
      var finals := Finals(stream.deliveries[known..]);
      run.OnStdout(finals);
      FinalsFrom(before, stream.deliveries, delivered);
      Supervisor.DataChains(run.limits, was, finals);
      Supervisor.DataKeeps(run.limits, was, finals);
    }

    /** A chunk on the error output restarts the activity timer. */
    method OnStderrData(chunk: string)
      requires Valid()
      modifies stream, run
      ensures Valid() && delivered == old(delivered)
      ensures stream.err == old(stream.err) + chunk && stream.deliveries == old(stream.deliveries)
      ensures run.View() == Supervisor.Step(run.limits, old(run.View()), Supervisor.Stderr)
    {
      hide Supervisor.Inv, Supervisor.Kept, Finals;
      run.OnStderr();
      stream.OnStderr(chunk);
    }

    /** The delivery of the first waiting output is done; it may have failed. */
    method OnDeliveryDone(ok: bool)
      requires Valid() && delivered < |stream.deliveries|
      modifies this, run
      ensures Valid() && delivered == old(delivered) + 1
      ensures run.View() == Supervisor.Step(run.limits, old(run.View()), Supervisor.Delivered(ok))
    {
      hide Supervisor.Inv, Supervisor.Kept, Supervisor.OnDelivered;
      DeliveredChain(run.limits, run.View(), ok);
      run.OnDeliveryDone(ok);
      delivered := delivered + 1;
    }

    // ---- the events that leave the outputs alone

    /** Time passes up to the next deadline. */
    method OnTimePasses(ms: nat)
      requires Valid() && Supervisor.Enabled(run.View(), Supervisor.Pass(ms))
      modifies run
      ensures Valid()
      ensures run.View() == Supervisor.Step(run.limits, old(run.View()), Supervisor.Pass(ms))
    {
      hide Supervisor.Inv, Supervisor.Kept, Supervisor.Step, Finals;
      OthersKeepOutputs(run.limits, run.View(), Supervisor.Pass(ms));
      run.OnTimePasses(ms);
    }

    method OnTimeout()
      requires Valid() && Supervisor.Enabled(run.View(), Supervisor.Fire(Supervisor.ActivityTimer))
      modifies run
      ensures Valid()
      ensures run.View() == Supervisor.Step(run.limits, old(run.View()), Supervisor.Fire(Supervisor.ActivityTimer))
    {
      hide Supervisor.Inv, Supervisor.Kept, Supervisor.Step, Finals;
      OthersKeepOutputs(run.limits, run.View(), Supervisor.Fire(Supervisor.ActivityTimer));
      run.OnTimeout();
    }

    method OnHardTimeout()
      requires Valid() && Supervisor.Enabled(run.View(), Supervisor.Fire(Supervisor.HardTimer))
      modifies run
      ensures Valid()
      ensures run.View() == Supervisor.Step(run.limits, old(run.View()), Supervisor.Fire(Supervisor.HardTimer))
    {
      hide Supervisor.Inv, Supervisor.Kept, Supervisor.Step, Finals;
      OthersKeepOutputs(run.limits, run.View(), Supervisor.Fire(Supervisor.HardTimer));
      run.OnHardTimeout();
    }

    method OnKillTimer()
      requires Valid() && Supervisor.Enabled(run.View(), Supervisor.Fire(Supervisor.KillTimer))
      modifies run
      ensures Valid()
      ensures run.View() == Supervisor.Step(run.limits, old(run.View()), Supervisor.Fire(Supervisor.KillTimer))
    {
      hide Supervisor.Inv, Supervisor.Kept, Supervisor.Step, Finals;
      OthersKeepOutputs(run.limits, run.View(), Supervisor.Fire(Supervisor.KillTimer));
      run.OnKillTimer();
    }

    method OnTermTimer()
      requires Valid() && Supervisor.Enabled(run.View(), Supervisor.Fire(Supervisor.PostTerm))
      modifies run
      ensures Valid()
      ensures run.View() == Supervisor.Step(run.limits, old(run.View()), Supervisor.Fire(Supervisor.PostTerm))
    {
      hide Supervisor.Inv, Supervisor.Kept, Supervisor.Step, Finals;
      OthersKeepOutputs(run.limits, run.View(), Supervisor.Fire(Supervisor.PostTerm));
      run.OnTermTimer();
    }

    method OnPostKillTimer()
      requires Valid() && Supervisor.Enabled(run.View(), Supervisor.Fire(Supervisor.PostKill))
      modifies run
      ensures Valid()
      ensures run.View() == Supervisor.Step(run.limits, old(run.View()), Supervisor.Fire(Supervisor.PostKill))
    {
      hide Supervisor.Inv, Supervisor.Kept, Supervisor.Step, Finals;
      OthersKeepOutputs(run.limits, run.View(), Supervisor.Fire(Supervisor.PostKill));
      run.OnPostKillTimer();
    }

    method OnResolveTimer()
      requires Valid() && Supervisor.Enabled(run.View(), Supervisor.Fire(Supervisor.PostRelease))
      modifies run
      ensures Valid()
      ensures run.View() == Supervisor.Step(run.limits, old(run.View()), Supervisor.Fire(Supervisor.PostRelease))
    {
      hide Supervisor.Inv, Supervisor.Kept, Supervisor.Step, Finals;
      OthersKeepOutputs(run.limits, run.View(), Supervisor.Fire(Supervisor.PostRelease));
      run.OnResolveTimer();
    }

    method OnExit(code: Option<int>, signal: bool)
      requires Valid()
      modifies run
      ensures Valid()
      ensures run.View() == Supervisor.Step(run.limits, old(run.View()), Supervisor.Exit(code, signal))
    {
      hide Supervisor.Inv, Supervisor.Kept, Supervisor.Step, Finals;
      OthersKeepOutputs(run.limits, run.View(), Supervisor.Exit(code, signal));
      run.OnExit(code, signal);
    }

    method OnClose(code: Option<int>, signal: bool)
      requires Valid()
      modifies run
      ensures Valid()
      ensures run.View() == Supervisor.Step(run.limits, old(run.View()), Supervisor.Close(code, signal))
    {
      hide Supervisor.Inv, Supervisor.Kept, Supervisor.Step, Finals;
      OthersKeepOutputs(run.limits, run.View(), Supervisor.Close(code, signal));
      run.OnClose(code, signal);
    }

    method OnError()
      requires Valid()
      modifies run
      ensures Valid()
      ensures run.View() == Supervisor.Step(run.limits, old(run.View()), Supervisor.SpawnError)
    {
      hide Supervisor.Inv, Supervisor.Kept, Supervisor.Step, Finals;
      OthersKeepOutputs(run.limits, run.View(), Supervisor.SpawnError);
      run.OnError();
    }
  }

  /** What the other events leave alone. */
  lemma OthersKeepOutputs(l: Supervisor.Limits, s: Supervisor.Process, e: Supervisor.Event)
    requires Supervisor.Enabled(s, e) && !e.Data? && !e.Delivered?
    ensures var t := Supervisor.Step(l, s, e);
            t.chain == s.chain && t.hadOutput == s.hadOutput && t.scheduled == s.scheduled
  {
    hide Supervisor.HandleClose, Supervisor.Finish;
    match e
    case Fire(x) => FinishKeepsOutputs(l, s.(timers := s.timers.Cleared(x)), None, true);
    case Exit(code, signal) => FinishKeepsOutputs(l, s, code, signal);
    case Close(code, signal) => FinishKeepsOutputs(l, s, code, signal);
    case _ =>
  }

  lemma FinishKeepsOutputs(l: Supervisor.Limits, s: Supervisor.Process, code: Option<int>, signal: bool)
    ensures var t := Supervisor.Finish(l, s, code, signal);
            t.chain == s.chain && t.hadOutput == s.hadOutput && t.scheduled == s.scheduled
  {
  }

  /** The clean-up of a host's process is scheduled only when the text received holds a complete frame
      that decodes to a terminal output; otherwise the time the run can take has no bound. */
  lemma BoundedOnlyByATerminalFrame(h: Host, until: nat)
    requires h.Valid() && h.stream.streaming && !h.run.closed
    requires Supervisor.ClosedAfter(h.run.limits, h.run.View(), until)
    ensures var outs := AgentStream.Decoded(h.stream.decode,
                                            FrameParser.Parse(h.stream.markers, h.stream.out).frames);
            TerminalAmong(outs, h.delivered)
  {
    Supervisor.BoundedExactlyWhenScheduled(h.run.limits, h.run.View());
  }
}
