/** What holds when a handler of a turn has returned: the errors it reported are on record, the typing indicator
    is off after a final output, and the ticker is off after finish. */
module TurnReturns {
  import opened Basics
  import CoalescingTask
  import opened TurnHandover
  import opened TurnSafety
  import TurnDeliveries
  import TurnProgress

  /** failed: an error has been recorded; owed: the running handler has one to record when it returns; call: the
      latest handler's event, unless it was abandoned. */
  datatype Tally = Tally(failed: bool, owed: bool, call: Option<Event>)

  const START := Tally(false, false, None)

  /** An error that an output reports counts when its handler has returned, unless it is an intermediate text or
      tool activity. */
  predicate Reports(out: Output) {
    out.error && (out.kind == ProgressText || out.kind == FinalText)
  }

  /** The running handler throws. */
  predicate Throws(s: Turn, e: Event) {
    || TurnDeliveries.Abandons(s, e) || e == DeliverDone(false)
    || (e == TypingDone(false) && (s.stand.OutputTyping? || s.stand.FinishTyping?))
  }

  function Settled(q: Tally, returned: bool): Tally {
    if returned then q.(failed := q.failed || q.owed, owed := false) else q
  }

  /** A poisoned session counts at once, and an unsuccessful end once the typing indicator is off. */
  function Next(s: Turn, m: Move, returned: bool, q: Tally): Tally {
    if Throws(s, m.event) then Tally(q.failed, false, None)
    else
      match m.event
      case OutputArrives(out) =>
        if s.phase == Final then q
        else Settled(Tally(q.failed || out.poisoned, Reports(out), Some(m.event)), returned)
      case FinishCalled(success) => Settled(Tally(q.failed, !success, Some(m.event)), !s.typing)
      case TypingDone(_) => Settled(q, returned || s.stand.FinishTyping?)
      case _ => Settled(q, returned)
  }

  function TallyOf(o: Options, s: Turn, ms: seq<Move>, q: Tally): Tally
    requires Runs(o, s, ms)
    decreases |ms|
  {
    if ms == [] then q
    else
      var t := Step(o, s, ms[0].env, ms[0].event);
      TallyOf(o, t, ms[1..], Next(s, ms[0], t.stand.Ready?, q))
  }

  // ---- what a stand still has to do

  function OwedBy(origin: Origin): bool {
    origin.FromOutput? && origin.error
  }

  function OwedAfter(a: After): bool {
    match a
    case AfterBuffer(_, error) => error
    case AfterEnsure(_, _, error) => error
    case AfterFlush(p) => OwedBy(p.origin)
  }

  function OwedAt(stand: Stand): bool {
    match stand
    case Ready => false
    case SendTyping(_, _, a) => OwedAfter(a)
    case SendEdit(a) => OwedAfter(a)
    case SendPlain(a) => OwedAfter(a)
    case Creating(_, a) => OwedAfter(a)
    case PublishStart(p) => OwedBy(p.origin)
    case PublishFlushed(p) => OwedBy(p.origin)
    case PublishIdle(p) => OwedBy(p.origin)
    case DeliverTyping(p, _) => OwedBy(p.origin)
    case Delivering(origin) => OwedBy(origin)
    case Finalizing(origin) => OwedBy(origin)
    case OutputTyping(error) => error
    case FinishTyping(success) => !success
  }

  /** The part of a step from s to t leaves owed either recorded or still owed. */
  predicate Owes(s: Turn, t: Turn, owed: bool) {
    if t.stand.Ready? then t.hadError == (s.hadError || owed) else t.hadError == s.hadError && OwedAt(t.stand) == owed
  }

  predicate Tallied(s: Turn, q: Tally) {
    s.hadError == q.failed && OwedAt(s.stand) == q.owed
  }

  // ---- parts of a step

  lemma RequestOwes(o: Options, s: Turn, env: Env)
    ensures var t := RequestEdit(o, s, env); t.hadError == s.hadError && t.stand == s.stand
  {
  }

  lemma EnsuredOwes(o: Options, s: Turn, env: Env, a: After)
    requires a.AfterEnsure?
    ensures Owes(s, Ensured(o, s, env, a), a.error)
  {
    hide RequestEdit;
    RequestOwes(o, if a.subagent then StartTicker(o, s) else s, env);
  }

  lemma SentOwes(o: Options, s: Turn, env: Env, a: After)
    ensures Owes(s, Sent(o, s, env, a), OwedAfter(a))
  {
    hide Ensured;
    if a.AfterEnsure? {
      EnsuredOwes(o, StartTicker(o, s).(creating := false, pending := ""), env, a);
    }
  }

  lemma SendNowOwes(o: Options, s: Turn, env: Env, text: string, replay: bool, a: After)
    ensures Owes(s, SendNow(o, s, env, text, replay, a), OwedAfter(a))
  {
    hide RequestEdit;
    RequestOwes(o, Titled(s, text, replay), env);
  }

  lemma SendProgressOwes(o: Options, s: Turn, env: Env, text: string, replay: bool, a: After)
    ensures Owes(s, SendProgress(o, s, env, text, replay, a), OwedAfter(a))
  {
    hide Sent, SendNow;
    SentOwes(o, s.(pending := ""), env, a);
    SentOwes(o, s, env, a);
    SendNowOwes(o, s, env, text, replay, a);
  }

  lemma EnsureOwes(o: Options, s: Turn, env: Env, a: After)
    requires a.AfterEnsure?
    ensures Owes(s, Ensure(o, s, env, a), a.error)
  {
    hide Ensured, SendProgress;
    EnsuredOwes(o, s, env, a);
    var heading := if s.pending != "" then s.pending
                   else if s.latest != "" then s.latest
                   else DEFAULT_HEADING;
    SendProgressOwes(o, s.(creating := true, latest := if s.latest == "" then heading else s.latest), env,
                     heading, false, a);
  }

  lemma EndOutputOwes(s: Turn, error: bool)
    ensures Owes(s, EndOutput(s, error), error)
  {
  }

  lemma AfterPublishOwes(s: Turn, origin: Origin)
    ensures Owes(s, AfterPublish(s, origin), OwedBy(origin))
  {
  }

  lemma FinalizeOwes(o: Options, s: Turn, env: Env, origin: Origin)
    ensures Owes(s, Finalize(o, s, env, origin), OwedBy(origin))
  {
    hide RequestEdit;
    RequestOwes(o, StopTicker(s), env);
  }

  lemma PublishingOwes(o: Options, s: Turn, env: Env, p: Publication)
    ensures Owes(s, TurnHandover.Publishing(o, s, env, p), OwedBy(p.origin))
  {
    hide SendProgress;
    SendProgressOwes(o, s.(task := CoalescingTask.AfterCancel(CoalescingTask.AfterStop(s.task))), env,
                     s.pending, true, AfterFlush(p));
  }

  // ---- handlers

  lemma OutputOwes(o: Options, s: Turn, env: Env, out: Output)
    requires s.stand.Ready? && s.phase != Final
    ensures var u := s.(hadError := s.hadError || out.poisoned);
            Owes(u, HandleOutput(o, s, env, out), Reports(out))
  {
    hide SendProgress, Ensure, RequestEdit, EndOutput, Finalize;
    var u := s.(hadError := s.hadError || out.poisoned);
    match out.kind
    case Intermediate =>
      RequestOwes(o, u.(pending := "", latest := out.text, forFinal := out.text), env);
      SendProgressOwes(o, u.(pending := out.text), env, out.text, true, AfterBuffer(out.text, false));
    case ToolActivity =>
      EnsureOwes(o, u, env, AfterEnsure(true, false, false));
      EnsureOwes(o, if out.text != "" then StartTicker(o, u) else u, env, AfterEnsure(false, false, false));
    case ProgressText => ProgressOwes(o, u, env, out);
    case FinalText =>
      FinalizeOwes(o, u, env, FromOutput(out.error));
      EndOutputOwes(u, out.error);
  }

  lemma ProgressOwes(o: Options, s: Turn, env: Env, out: Output)
    requires s.stand.Ready?
    ensures Owes(s, HandleProgress(o, s, env, out), out.error)
  {
    hide SendProgress, Ensure, RequestEdit;
    EnsureOwes(o, if s.latest == "" then s.(latest := DEFAULT_HEADING) else s, env,
               AfterEnsure(true, true, out.error));
    RequestOwes(o, s.(latest := out.text, forFinal := out.text), env);
    SendProgressOwes(o, s.(pending := out.text), env, out.text, true, AfterBuffer(out.text, out.error));
  }

  lemma FinishedOwes(o: Options, s: Turn, env: Env, success: bool)
    requires s.stand.Ready? || s.stand.FinishTyping?
    ensures var t := Finished(o, s, env, success); t.hadError == (s.hadError || !success) && !OwedAt(t.stand)
  {
    hide Finalize;
    FinalizeOwes(o, s.(hadError := s.hadError || !success), env, FromFinish);
  }

  // ---- steps

  lemma CallTallied(o: Options, s: Turn, m: Move, q: Tally)
    requires Enabled(s, m.event) && (m.event.OutputArrives? || m.event.FinishCalled?) && Tallied(s, q)
    ensures var t := Step(o, s, m.env, m.event); Tallied(t, Next(s, m, t.stand.Ready?, q))
  {
    hide HandleOutput, Finished;
    match m.event
    case OutputArrives(out) =>
      if s.phase == Final {
        LateOutput(o, s, m.env, out);
      } else {
        OutputOwes(o, s, m.env, out);
      }
    case FinishCalled(success) => FinishedOwes(o, s, m.env, success);
  }

  lemma LateOutput(o: Options, s: Turn, env: Env, out: Output)
    requires s.phase == Final
    ensures HandleOutput(o, s, env, out) == s
  {
  }

  /** The edit task leaves the handler and the errors alone, unless it throws under it. */
  lemma TaskOwes(o: Options, s: Turn, m: Move)
    requires Enabled(s, m.event)
    requires m.event.Tick? || m.event.EditDone? || m.event.DrainLoops? || m.event.TaskThrows?
    ensures var t := Step(o, s, m.env, m.event);
            && t.hadError == s.hadError
            && (if Throws(s, m.event) then t.stand.Ready? else t.stand == s.stand)
  {
  }

  lemma TaskTallied(o: Options, s: Turn, m: Move, q: Tally)
    requires Enabled(s, m.event) && Tallied(s, q)
    requires m.event.Tick? || m.event.EditDone? || m.event.DrainLoops? || m.event.TaskThrows?
    ensures var t := Step(o, s, m.env, m.event); Tallied(t, Next(s, m, t.stand.Ready?, q))
  {
    TaskOwes(o, s, m);
    hide Step, Throws;
  }

  lemma ResumeTallied(o: Options, s: Turn, m: Move, q: Tally)
    requires Enabled(s, m.event) && m.event.Resumes? && Tallied(s, q)
    ensures var t := Step(o, s, m.env, m.event); Tallied(t, Next(s, m, t.stand.Ready?, q))
  {
    hide Sent, TurnHandover.Publishing, AfterPublish;
    match s.stand
    case PublishStart(p) =>
      PublishingOwes(o, s, m.env, p);
    case SendEdit(a) => SentOwes(o, s.(phase := Progress), m.env, a);
    case Finalizing(origin) => AfterPublishOwes(ResetProgress(s).(forFinal := ""), origin);
    case PublishFlushed(p) =>
    case PublishIdle(p) =>
  }

  lemma TypingTallied(o: Options, s: Turn, m: Move, q: Tally)
    requires Enabled(s, m.event) && m.event.TypingDone? && Tallied(s, q)
    ensures var t := Step(o, s, m.env, m.event); Tallied(t, Next(s, m, t.stand.Ready?, q))
  {
    if !m.event.ok {
      TypingThrows(o, s, m);
      hide Step;
    } else {
      assert !Throws(s, m.event);
      hide Throws, SendNow, SendFailed, Finished, AfterPublish;
      match s.stand
      case SendTyping(text, replay, a) => SendNowOwes(o, s.(typing := true), m.env, text, replay, a);
      case DeliverTyping(p, replace) =>
        AfterPublishOwes(s.(typing := true, phase := Final, forFinal := ""), p.origin);
      case OutputTyping(error) =>
      case FinishTyping(success) => FinishedOwes(o, s.(typing := false), m.env, success);
    }
  }

  lemma TypingThrows(o: Options, s: Turn, m: Move)
    requires Enabled(s, m.event) && m.event == TypingDone(false)
    ensures Throws(s, m.event) && Step(o, s, m.env, m.event).stand.Ready?
    ensures Step(o, s, m.env, m.event).hadError == s.hadError
  {
    hide SendNow, Finished, AfterPublish;
  }

  lemma AnswerTallied(o: Options, s: Turn, m: Move, q: Tally)
    requires Enabled(s, m.event) && Tallied(s, q)
    requires m.event.CreateDone? || m.event.PlainDone? || m.event.DeliverDone?
    ensures var t := Step(o, s, m.env, m.event); Tallied(t, Next(s, m, t.stand.Ready?, q))
  {
    hide Sent, AfterPublish;
    match m.event
    case CreateDone(id) =>
      if id.Some? {
        SentOwes(o, Tracked(o, s.(rendered := Some(s.stand.shown)), id.value), m.env, s.stand.after);
      }
    case PlainDone(ok) => SentOwes(o, s.(phase := Progress), m.env, s.stand.after);
    case DeliverDone(_) => AfterPublishOwes(s.(forFinal := ""), s.stand.origin);
  }

  lemma StepTallied(o: Options, s: Turn, m: Move, q: Tally)
    requires Enabled(s, m.event) && Tallied(s, q)
    ensures var t := Step(o, s, m.env, m.event); Tallied(t, Next(s, m, t.stand.Ready?, q))
  {
    hide Step, Tallied, Next, Enabled;
    if m.event.OutputArrives? || m.event.FinishCalled? {
      CallTallied(o, s, m, q);
    } else if m.event.Tick? || m.event.EditDone? || m.event.DrainLoops? || m.event.TaskThrows? {
      TaskTallied(o, s, m, q);
    } else if m.event.Resumes? {
      ResumeTallied(o, s, m, q);
    } else if m.event.TypingDone? {
      TypingTallied(o, s, m, q);
    } else {
      AnswerTallied(o, s, m, q);
    }
  }

  lemma {:induction false} RunTallied(o: Options, s: Turn, ms: seq<Move>, q: Tally)
    requires Runs(o, s, ms) && Tallied(s, q)
    ensures Tallied(Exec(o, s, ms), TallyOf(o, s, ms, q))
    decreases |ms|
  {
    hide Tallied, Step, Enabled, Next;
    if ms != [] {
      var t := Step(o, s, ms[0].env, ms[0].event);
      StepTallied(o, s, ms[0], q);
      RunTallied(o, t, ms[1..], Next(s, ms[0], t.stand.Ready?, q));
    }
  }

  /** At any point of any turn the record says that it has failed exactly when its history does: a poisoned output
      came, a handler that returned had been given an error to report, or finish was told of one. */
  lemma FailedExactlyWhen(o: Options, typing: bool, ms: seq<Move>)
    requires Runs(o, Begin(typing), ms)
    ensures Exec(o, Begin(typing), ms).hadError == TallyOf(o, Begin(typing), ms, START).failed
  {
    assert Tallied(Begin(typing), START);
    RunTallied(o, Begin(typing), ms, START);
  }

  // ---- what the latest call leaves behind

  predicate FinalCall(call: Option<Event>) {
    call.Some? && call.value.OutputArrives? && call.value.out.kind == FinalText
  }

  predicate FinishCall(call: Option<Event>) {
    call.Some? && call.value.FinishCalled?
  }

  predicate From(origin: Origin, call: Option<Event>) {
    if origin.FromOutput? then FinalCall(call) else FinishCall(call)
  }

  /** The publication belongs to the call; that of finish has the typing indicator off until the delivery. */
  predicate Publishing(s: Turn, p: Publication, call: Option<Event>) {
    From(p.origin, call) && (p.origin.FromFinish? ==> !s.typing)
  }

  /** After a final output the typing indicator is off; after finish the ticker is off, and the typing indicator is
      on only if finish came to a delivery. */
  predicate Left(s: Turn, call: Option<Event>) {
    && (FinalCall(call) ==> !s.typing)
    && (FinishCall(call) ==> !s.task.ticker && (s.typing ==> s.phase == Final))
  }

  predicate Belongs(s: Turn, call: Option<Event>) {
    match s.stand
    case Ready => Left(s, call)
    case PublishStart(p) => Publishing(s, p, call)
    case PublishFlushed(p) => Publishing(s, p, call)
    case PublishIdle(p) => Publishing(s, p, call)
    case DeliverTyping(p, _) => Publishing(s, p, call)
    case Delivering(origin) => From(origin, call) && s.phase == Final
    case Finalizing(origin) => From(origin, call) && (origin.FromFinish? ==> !s.typing)
    case OutputTyping(_) => FinalCall(call)
    case FinishTyping(success) => call == Some(FinishCalled(success))
    case _ => call.Some? && !FinalCall(call) && !FinishCall(call)
  }

  lemma EnsureOpens(o: Options, s: Turn, env: Env, a: After)
    requires TurnProgress.Serial(s) && s.stand.Ready? && a.AfterEnsure?
    ensures var t := Ensure(o, s, env, a); t.stand.Ready? || TurnProgress.Sending(t.stand)
  {
    hide RequestEdit;
  }

  lemma OpensSending(o: Options, s: Turn, env: Env, out: Output)
    requires TurnProgress.Serial(s) && s.stand.Ready? && s.phase != Final && out.kind != FinalText
    ensures var t := HandleOutput(o, s, env, out); t.stand.Ready? || TurnProgress.Sending(t.stand)
  {
    hide Ensure;
    var u := s.(hadError := s.hadError || out.poisoned);
    RequestOwes(o, u.(pending := "", latest := out.text, forFinal := out.text), env);
    hide RequestEdit;
    EnsureOpens(o, u, env, AfterEnsure(true, false, false));
    EnsureOpens(o, if out.text != "" then StartTicker(o, u) else u, env, AfterEnsure(false, false, false));
    EnsureOpens(o, if s.latest == "" then u.(latest := DEFAULT_HEADING) else u, env,
                AfterEnsure(true, true, out.error));
  }

  lemma EndOutputLeaves(s: Turn, error: bool, call: Option<Event>)
    requires FinalCall(call)
    ensures Belongs(EndOutput(s, error), call)
  {
  }

  lemma AfterPublishLeaves(s: Turn, origin: Origin, call: Option<Event>)
    requires From(origin, call) && (origin.FromFinish? && s.typing ==> s.phase == Final)
    ensures Belongs(AfterPublish(s, origin), call)
  {
  }

  lemma FinalizeBelongs(o: Options, s: Turn, env: Env, origin: Origin)
    ensures var t := Finalize(o, s, env, origin); t.stand == Finalizing(origin) && t.typing == s.typing
  {
  }

  lemma FinishedBelongs(o: Options, s: Turn, env: Env, success: bool, call: Option<Event>)
    requires !s.typing && FinishCall(call)
    ensures Belongs(Finished(o, s, env, success), call)
  {
    hide Finalize;
    FinalizeBelongs(o, s.(hadError := s.hadError || !success), env, FromFinish);
  }

  lemma CallBelongs(o: Options, s: Turn, m: Move, q: Tally)
    requires TurnProgress.Serial(s) && Enabled(s, m.event) && (m.event.OutputArrives? || m.event.FinishCalled?)
    requires Belongs(s, q.call)
    ensures var t := Step(o, s, m.env, m.event); Belongs(t, Next(s, m, t.stand.Ready?, q).call)
  {
    hide Finished, Finalize, EndOutput, HandleIntermediate, HandleTool, HandleProgress, TurnProgress.Serial;
    match m.event
    case OutputArrives(out) =>
      var u := s.(hadError := s.hadError || out.poisoned);
      if s.phase == Final {
      } else if out.kind == FinalText {
        FinalizeBelongs(o, u, m.env, FromOutput(out.error));
        EndOutputLeaves(u, out.error, Some(m.event));
      } else {
        OpensSending(o, s, m.env, out);
      }
    case FinishCalled(success) =>
      if !s.typing {
        FinishedBelongs(o, s, m.env, success, Some(m.event));
      }
  }

  lemma EditKeeps(o: Options, s: Turn, m: Move)
    requires Enabled(s, m.event) && (m.event.Tick? || m.event.EditDone? || m.event.DrainLoops?)
    ensures var t := Step(o, s, m.env, m.event);
            && t.stand == s.stand && t.typing == s.typing && t.phase == s.phase
            && (t.task.ticker ==> s.task.ticker)
  {
  }

  lemma TaskBelongs(o: Options, s: Turn, m: Move, q: Tally)
    requires Enabled(s, m.event) && Belongs(s, q.call)
    requires m.event.Tick? || m.event.EditDone? || m.event.DrainLoops? || m.event.TaskThrows?
    ensures var t := Step(o, s, m.env, m.event); Belongs(t, Next(s, m, t.stand.Ready?, q).call)
  {
    if !m.event.TaskThrows? {
      EditKeeps(o, s, m);
      hide Step;
    } else {
      hide RequestEdit, Apply;
    }
  }

  lemma ResumeBelongs(o: Options, s: Turn, m: Move, q: Tally)
    requires TurnProgress.Serial(s) && Enabled(s, m.event) && Belongs(s, q.call) && m.event.Resumes?
    ensures var t := Step(o, s, m.env, m.event); Belongs(t, Next(s, m, t.stand.Ready?, q).call)
  {
    TurnProgress.NoSecondSend(s);
    hide AfterPublish, Sent, SendProgress, TurnProgress.Serial;
    match s.stand
    case PublishStart(p) =>
      TurnProgress.StartForm(o, s, m.env);
    case PublishFlushed(p) =>
    case PublishIdle(p) =>
    case Finalizing(origin) => AfterPublishLeaves(ResetProgress(s).(forFinal := ""), origin, q.call);
  }

  lemma TypingBelongs(o: Options, s: Turn, m: Move, q: Tally)
    requires TurnProgress.Serial(s) && Enabled(s, m.event) && Belongs(s, q.call) && m.event.TypingDone?
    ensures var t := Step(o, s, m.env, m.event); Belongs(t, Next(s, m, t.stand.Ready?, q).call)
  {
    if !m.event.ok {
      TypingThrows(o, s, m);
      hide Step, TurnProgress.Serial;
    } else {
      hide AfterPublish, Finished, RequestEdit, SendFailed;
      match s.stand
      case SendTyping(text, replay, a) =>
      case DeliverTyping(p, replace) =>
        AfterPublishLeaves(s.(typing := true, phase := Final, forFinal := ""), p.origin, q.call);
      case OutputTyping(error) =>
      case FinishTyping(success) => FinishedBelongs(o, s.(typing := false), m.env, success, q.call);
    }
  }

  lemma AnswerBelongs(o: Options, s: Turn, m: Move, q: Tally)
    requires TurnProgress.Serial(s) && Enabled(s, m.event) && Belongs(s, q.call)
    requires m.event.CreateDone? || m.event.PlainDone? || m.event.DeliverDone?
    ensures var t := Step(o, s, m.env, m.event); Belongs(t, Next(s, m, t.stand.Ready?, q).call)
  {
    hide AfterPublish, RequestEdit;
    if m.event.DeliverDone? {
      AfterPublishLeaves(s.(forFinal := ""), s.stand.origin, q.call);
    }
  }

  lemma StepBelongs(o: Options, s: Turn, m: Move, q: Tally)
    requires TurnProgress.Serial(s) && Enabled(s, m.event) && Belongs(s, q.call)
    ensures var t := Step(o, s, m.env, m.event); Belongs(t, Next(s, m, t.stand.Ready?, q).call)
  {
    hide Step, Belongs, Next, Enabled, TurnProgress.Serial;
    if m.event.OutputArrives? || m.event.FinishCalled? {
      CallBelongs(o, s, m, q);
    } else if m.event.Tick? || m.event.EditDone? || m.event.DrainLoops? || m.event.TaskThrows? {
      TaskBelongs(o, s, m, q);
    } else if m.event.Resumes? {
      ResumeBelongs(o, s, m, q);
    } else if m.event.TypingDone? {
      TypingBelongs(o, s, m, q);
    } else {
      AnswerBelongs(o, s, m, q);
    }
  }

  lemma {:induction false} RunBelongs(o: Options, s: Turn, ms: seq<Move>, q: Tally)
    requires Inv(s) && TurnProgress.Serial(s) && Runs(o, s, ms) && Belongs(s, q.call)
    ensures Belongs(Exec(o, s, ms), TallyOf(o, s, ms, q).call)
    decreases |ms|
  {
    hide Inv, TurnProgress.Serial, TurnProgress.Told, Belongs, Step, Enabled, Next;
    if ms != [] {
      var t := Step(o, s, ms[0].env, ms[0].event);
      StepBelongs(o, s, ms[0], q);
      StepInv(o, s, ms[0].env, ms[0].event);
      TurnProgress.StepTold(o, s, ms[0]);
      RunBelongs(o, t, ms[1..], Next(s, ms[0], t.stand.Ready?, q));
    }
  }

  /** Whenever no handler runs: if the latest one was for a final output the typing indicator is off, and if it was
      finish the ticker is off, and the typing indicator too unless finish came to a delivery. */
  lemma LeftBehind(o: Options, typing: bool, ms: seq<Move>)
    requires Runs(o, Begin(typing), ms)
    ensures var s, call := Exec(o, Begin(typing), ms), TallyOf(o, Begin(typing), ms, START).call;
            s.stand.Ready? ==> Left(s, call)
  {
    assert Belongs(Begin(typing), None);
    hide Runs, Exec, TallyOf, Inv, TurnProgress.Serial;
    BeginInv(typing);
    TurnProgress.BeginSerial(typing);
    RunBelongs(o, Begin(typing), ms, START);
  }
}
