/** No stale edit over a final answer, and at most one final delivery in a turn, for every interleaving
    of handlers, ticks and slow edits. */
module TurnSafety {
  import opened Basics
  import CoalescingTask
  import opened TurnHandover

  // ---- the invariant

  /** A message given up for a final text is neither tracked nor being edited. */
  ghost predicate Core(s: Turn) {
    && (s.edit.Some? ==> s.task.inFlight)
    && s.handed <= s.used
    && (s.id.Some? ==> s.id.value in s.used && s.id.value !in s.handed)
    && (s.edit.Some? ==> s.edit.value.id in s.used && s.edit.value.id !in s.handed)
  }

  /** Nothing edits or is going to edit, and no progress message is tracked. */
  predicate Quiet(s: Turn) {
    s.task == CoalescingTask.IDLE && s.edit.None? && s.id.None?
  }

  ghost predicate Live(s: Turn) {
    Core(s) && s.phase != Final && s.deliveries == []
  }

  ghost predicate Over(s: Turn) {
    && s.phase == Final && Quiet(s) && |s.deliveries| <= 1
    && (s.stand.Ready? || s.stand.Delivering? || s.stand.OutputTyping? || s.stand.FinishTyping?)
    && (forall i :: 0 <= i < |s.deliveries| ==> HandedOver(s, s.deliveries[i].replace))
  }

  predicate HandedOver(s: Turn, replace: Option<Id>) {
    replace.Some? ==> replace.value in s.handed
  }

  ghost predicate Waiting(s: Turn) {
    && Live(s) && !s.stand.Delivering?
    && (s.stand.DeliverTyping? ==> Quiet(s) && HandedOver(s, s.stand.replace))
  }

  ghost predicate Inv(s: Turn) {
    Core(s) && (Over(s) || Waiting(s))
  }

  /** From s to t messages are only given up, never taken back, and no edit is issued for one that s
      had given up. */
  ghost predicate Grew(s: Turn, t: Turn) {
    && s.handed <= t.handed && s.edits <= t.edits
    && (forall k :: |s.edits| <= k < |t.edits| ==> t.edits[k] !in s.handed)
  }

  // ---- the parts of a step

  lemma ApplyLive(o: Options, s: Turn, r: CoalescingTask.Outcome, env: Env)
    requires Live(s) && (r.runs ==> s.edit.None? && r.task.inFlight)
    requires s.edit.Some? ==> r.task.inFlight
    ensures var t := Apply(o, s, r, env);
            && Live(t) && Grew(s, t)
            && t == s.(task := t.task, edit := t.edit, edits := t.edits)
  {
  }

  lemma RequestLive(o: Options, s: Turn, env: Env)
    requires Live(s)
    ensures var t := RequestEdit(o, s, env);
            && Live(t) && Grew(s, t)
            && t == s.(task := t.task, edit := t.edit, edits := t.edits)
  {
    ApplyLive(o, s, CoalescingTask.AfterRequest(s.task), env);
  }

  lemma RequestThenWait(o: Options, s: Turn, env: Env, stand: Stand)
    requires Live(s) && !stand.Delivering? && !stand.DeliverTyping?
    ensures var t := RequestEdit(o, s, env).(stand := stand); Waiting(t) && Grew(s, t)
  {
    hide RequestEdit;
    RequestLive(o, s, env);
  }

  lemma FinalizeLive(o: Options, s: Turn, env: Env, origin: Origin)
    requires Live(s)
    ensures Waiting(Finalize(o, s, env, origin)) && Grew(s, Finalize(o, s, env, origin))
  {
    hide RequestEdit, Waiting;
    RequestThenWait(o, StopTicker(s), env, Finalizing(origin));
  }

  lemma EnsuredLive(o: Options, s: Turn, env: Env, a: After)
    requires Live(s) && a.AfterEnsure?
    ensures Waiting(Ensured(o, s, env, a)) && Grew(s, Ensured(o, s, env, a))
  {
    hide RequestEdit;
    RequestLive(o, if a.subagent then StartTicker(o, s) else s, env);
  }

  lemma SentLive(o: Options, s: Turn, env: Env, a: After)
    requires Live(s)
    ensures Waiting(Sent(o, s, env, a)) && Grew(s, Sent(o, s, env, a))
  {
    hide Ensured;
    if a.AfterEnsure? {
      EnsuredLive(o, StartTicker(o, s).(creating := false, pending := ""), env, a);
    }
  }

  lemma SendFailedLive(s: Turn, a: After)
    requires Live(s)
    ensures Waiting(SendFailed(s, a)) && Grew(s, SendFailed(s, a))
  {
  }

  lemma SendNowLive(o: Options, s: Turn, env: Env, text: string, replay: bool, a: After)
    requires Live(s)
    ensures Waiting(SendNow(o, s, env, text, replay, a)) && Grew(s, SendNow(o, s, env, text, replay, a))
  {
    hide RequestEdit;
    RequestThenWait(o, Titled(s, text, replay), env, SendEdit(a));
  }

  lemma SendProgressLive(o: Options, s: Turn, env: Env, text: string, replay: bool, a: After)
    requires Live(s)
    ensures Waiting(SendProgress(o, s, env, text, replay, a))
    ensures Grew(s, SendProgress(o, s, env, text, replay, a))
  {
    hide Sent, SendNow;
    SentLive(o, s.(pending := ""), env, a);
    SentLive(o, s, env, a);
    SendNowLive(o, s, env, text, replay, a);
  }

  lemma EnsureLive(o: Options, s: Turn, env: Env, a: After)
    requires Live(s) && a.AfterEnsure?
    ensures Waiting(Ensure(o, s, env, a)) && Grew(s, Ensure(o, s, env, a))
  {
    hide Ensured, SendProgress;
    EnsuredLive(o, s, env, a);
    var heading := if s.pending != "" then s.pending
                   else if s.latest != "" then s.latest
                   else DEFAULT_HEADING;
    SendProgressLive(o, s.(creating := true, latest := if s.latest == "" then heading else s.latest),
                     env, heading, false, a);
  }

  lemma CreatedLive(o: Options, s: Turn, env: Env, id: Option<Id>)
    requires Live(s) && s.stand.Creating? && (id.Some? ==> id.value !in s.used)
    ensures Waiting(Created(o, s, env, id)) && Grew(s, Created(o, s, env, id))
  {
    hide Sent;
    if id.Some? {
      var t := Tracked(o, s.(rendered := Some(s.stand.shown)), id.value);
      assert Live(t);
      SentLive(o, t, env, s.stand.after);
    }
  }

  lemma HandleOutputLive(o: Options, s: Turn, env: Env, out: Output)
    requires Live(s)
    requires s.stand.Ready?
    ensures Waiting(HandleOutput(o, s, env, out)) && Grew(s, HandleOutput(o, s, env, out))
  {
    hide HandleIntermediate, HandleTool, HandleProgress, HandleFinal;
    var s' := s.(hadError := s.hadError || out.poisoned);
    match out.kind
    case Intermediate => HandleIntermediateLive(o, s', env, out);
    case ToolActivity => HandleToolLive(o, s', env, out);
    case ProgressText => HandleProgressLive(o, s', env, out);
    case FinalText => HandleFinalLive(o, s', env, out);
  }

  lemma HandleIntermediateLive(o: Options, s: Turn, env: Env, out: Output)
    requires Live(s) && s.stand.Ready?
    ensures var t := HandleIntermediate(o, s, env, out); Waiting(t) && Grew(s, t)
  {
    hide RequestEdit, SendProgress;
    RequestLive(o, s.(pending := "", latest := out.text, forFinal := out.text), env);
    SendProgressLive(o, s.(pending := out.text), env, out.text, true, AfterBuffer(out.text, false));
  }

  lemma HandleToolLive(o: Options, s: Turn, env: Env, out: Output)
    requires Live(s) && s.stand.Ready?
    ensures var t := HandleTool(o, s, env, out); Waiting(t) && Grew(s, t)
  {
    hide Ensure;
    EnsureLive(o, s, env, AfterEnsure(true, false, false));
    EnsureLive(o, if out.text != "" then StartTicker(o, s) else s, env, AfterEnsure(false, false, false));
  }

  lemma HandleProgressLive(o: Options, s: Turn, env: Env, out: Output)
    requires Live(s) && s.stand.Ready?
    ensures var t := HandleProgress(o, s, env, out); Waiting(t) && Grew(s, t)
  {
    hide RequestEdit, SendProgress, Ensure;
    if out.subagent {
      EnsureLive(o, if s.latest == "" then s.(latest := DEFAULT_HEADING) else s, env,
                 AfterEnsure(true, true, out.error));
    } else if s.id.Some? {
      RequestLive(o, s.(latest := out.text, forFinal := out.text), env);
    } else {
      SendProgressLive(o, s.(pending := out.text), env, out.text, true, AfterBuffer(out.text, out.error));
    }
  }

  lemma HandleFinalLive(o: Options, s: Turn, env: Env, out: Output)
    requires Live(s) && s.stand.Ready?
    ensures var t := HandleFinal(o, s, env, out); Waiting(t) && Grew(s, t)
  {
    hide Finalize;
    FinalizeLive(o, s, env, FromOutput(out.error));
  }

  lemma FinishedOver(o: Options, s: Turn, env: Env, success: bool)
    requires Core(s) && Over(s) && (s.stand.Ready? || s.stand.FinishTyping?)
    ensures var t := Finished(o, s, env, success); Core(t) && Over(t) && Grew(s, t)
  {
    hide Finalize, ResetProgress;
  }

  lemma FinishedLive(o: Options, s: Turn, env: Env, success: bool)
    requires Live(s)
    ensures var t := Finished(o, s, env, success); Waiting(t) && Grew(s, t)
  {
    hide Finalize;
    FinalizeLive(o, s.(hadError := s.hadError || !success), env, FromFinish);
  }

  /** Ends of handlers change neither what is tracked nor the phase. */
  lemma FinishedInv(o: Options, s: Turn, env: Env, success: bool)
    requires Inv(s) && (s.stand.Ready? || s.stand.FinishTyping?)
    ensures Inv(Finished(o, s, env, success)) && Grew(s, Finished(o, s, env, success))
  {
    hide Finished, Grew, Core, Quiet, HandedOver;
    if s.phase != Final {
      FinishedLive(o, s, env, success);
    } else {
      FinishedOver(o, s, env, success);
    }
  }

  lemma PublishingLive(o: Options, s: Turn, env: Env, p: Publication)
    requires Live(s)
    ensures Waiting(Publishing(o, s, env, p)) && Grew(s, Publishing(o, s, env, p))
  {
    hide SendProgress;
    var quiet := s.(task := CoalescingTask.AfterCancel(CoalescingTask.AfterStop(s.task)));
    SendProgressLive(o, quiet, env, s.pending, true, AfterFlush(p));
  }

  /** The hand-over happens with no drain in flight: the message given up is not being edited. */
  lemma HandOverQuiet(s: Turn, p: Publication)
    requires Live(s) && !s.task.inFlight
    ensures Waiting(HandOver(s, p)) && Grew(s, HandOver(s, p))
  {
  }

  lemma ResumeInv(o: Options, s: Turn, env: Env)
    requires Inv(s) && Resumable(s)
    ensures Inv(OnResume(o, s, env)) && Grew(s, OnResume(o, s, env))
  {
    hide Publishing, HandOver, Sent;
    match s.stand
    case PublishStart(p) => PublishingLive(o, s, env, p);
    case PublishFlushed(p) =>
    case PublishIdle(p) => HandOverQuiet(s, p);
    case SendEdit(a) => SentLive(o, s.(phase := Progress), env, a);
    case Finalizing(origin) =>
  }

  lemma TypingInv(o: Options, s: Turn, env: Env, ok: bool)
    requires Inv(s) && Enabled(s, TypingDone(ok))
    ensures Inv(OnTyping(o, s, env, ok)) && Grew(s, OnTyping(o, s, env, ok))
  {
    hide SendNow, SendFailed, Finished;
    match s.stand
    case SendTyping(text, replay, a) =>
      SendNowLive(o, s.(typing := true), env, text, replay, a);
      SendFailedLive(s, a);
    case DeliverTyping(p, replace) =>
    case OutputTyping(error) =>
    case FinishTyping(success) => FinishedInv(o, s.(typing := false), env, success);
  }

  lemma EditAnsweredInv(s: Turn, ok: bool)
    requires Inv(s) && s.edit.Some?
    ensures Inv(EditAnswered(s, ok)) && Grew(s, EditAnswered(s, ok))
  {
  }

  lemma DeliveredInv(s: Turn, ok: bool)
    requires Inv(s) && s.stand.Delivering?
    ensures Inv(OnDelivered(s, ok)) && Grew(s, OnDelivered(s, ok))
  {
  }

  lemma TaskThrowsInv(s: Turn)
    requires Inv(s) && Looping(s)
    ensures Inv(OnTaskThrows(s)) && Grew(s, OnTaskThrows(s))
  {
    hide SendFailed;
    var t := s.(task := CoalescingTask.AfterThrow(s.task));
    assert Live(t) && !s.stand.Delivering? && !s.stand.DeliverTyping?;
    if s.stand.SendEdit? {
      SendFailedLive(t, s.stand.after);
    }
  }

  lemma TaskInv(o: Options, s: Turn, env: Env, e: Event)
    requires Inv(s) && Enabled(s, e) && (e.Tick? || e.DrainLoops?)
    ensures Inv(Step(o, s, env, e)) && Grew(s, Step(o, s, env, e))
  {
    hide Apply;
    match e
    case Tick => RequestLive(o, s, env);
    case DrainLoops => ApplyLive(o, s, CoalescingTask.AfterRun(s.task), env);
  }

  lemma CallInv(o: Options, s: Turn, env: Env, e: Event)
    requires Inv(s) && Enabled(s, e) && (e.OutputArrives? || e.FinishCalled?)
    ensures Inv(Step(o, s, env, e)) && Grew(s, Step(o, s, env, e))
  {
    hide Finished, HandleIntermediate, HandleTool, HandleProgress, HandleFinal;
    match e
    case OutputArrives(out) =>
      if s.phase != Final {
        HandleOutputLive(o, s, env, out);
      }
    case FinishCalled(success) => FinishedInv(o, s, env, success);
  }

  lemma {:induction false} StepInv(o: Options, s: Turn, env: Env, e: Event)
    requires Inv(s) && Enabled(s, e)
    ensures Inv(Step(o, s, env, e)) && Grew(s, Step(o, s, env, e))
  {
    hide Finish, HandleOutput, EditAnswered, Apply, RequestEdit, OnTaskThrows, OnResume, OnTyping, Created, Sent,
         SendFailed, OnDelivered, Grew;
    match e
    case OutputArrives(_) => CallInv(o, s, env, e);
    case FinishCalled(_) => CallInv(o, s, env, e);
    case Tick => TaskInv(o, s, env, e);
    case DrainLoops => TaskInv(o, s, env, e);
    case TaskThrows => TaskThrowsInv(s);
    case EditDone(ok) => EditAnsweredInv(s, ok);
    case Resumes => ResumeInv(o, s, env);
    case TypingDone(ok) => TypingInv(o, s, env, ok);
    case CreateDone(id) => CreatedLive(o, s, env, id);
    case PlainDone(ok) => PlainInv(o, s, env, ok);
    case DeliverDone(ok) => DeliveredInv(s, ok);
  }

  lemma PlainInv(o: Options, s: Turn, env: Env, ok: bool)
    requires Inv(s) && s.stand.SendPlain?
    ensures Inv(OnPlain(o, s, env, ok)) && Grew(s, OnPlain(o, s, env, ok))
  {
    hide Sent, SendFailed;
    SentLive(o, s.(phase := Progress), env, s.stand.after);
    SendFailedLive(s, s.stand.after);
  }

  // ---- runs

  lemma {:induction false} RunInv(o: Options, s: Turn, ms: seq<Move>)
    requires Inv(s) && Runs(o, s, ms)
    ensures Inv(Exec(o, s, ms)) && Grew(s, Exec(o, s, ms))
    decreases |ms|
  {
    hide Inv, Step, Enabled, Grew;
    if ms == [] {
      GrewReflexive(s);
    } else {
      var t := Step(o, s, ms[0].env, ms[0].event);
      StepInv(o, s, ms[0].env, ms[0].event);
      RunInv(o, t, ms[1..]);
      GrewTransitive(s, t, Exec(o, t, ms[1..]));
    }
  }

  lemma GrewReflexive(s: Turn)
    ensures Grew(s, s)
  {
  }

  lemma GrewTransitive(s: Turn, t: Turn, u: Turn)
    requires Grew(s, t) && Grew(t, u)
    ensures Grew(s, u)
  {
    forall k | |s.edits| <= k < |u.edits| ensures u.edits[k] !in s.handed {
      if k < |t.edits| {
        assert u.edits[k] == t.edits[k];
      } else {
        assert u.edits[k] !in t.handed;
      }
    }
  }

  /** Once a progress message is handed over for the final text, it is not tracked, no edit of it is in
      flight, and none is ever issued again. */
  lemma NoStaleEdit(o: Options, s: Turn, ms: seq<Move>, h: Id)
    requires Inv(s) && Runs(o, s, ms) && h in s.handed
    ensures var t := Exec(o, s, ms);
            && t.id != Some(h) && (t.edit.Some? ==> t.edit.value.id != h)
            && |s.edits| <= |t.edits| && h !in t.edits[|s.edits|..]
  {
    hide Runs, Exec, Live, Over, Waiting;
    RunInv(o, s, ms);
  }

  /** At the moment of the hand-over itself. */
  lemma HandOverIsClean(o: Options, s: Turn, env: Env)
    requires Inv(s) && s.stand.PublishIdle? && Enabled(s, Resumes)
    ensures var t := Step(o, s, env, Resumes);
            && s.edit.None? && Quiet(t)
            && (s.id.Some? ==> s.id.value in t.handed)
            && t.stand == DeliverTyping(s.stand.p, if s.stand.p.attached then None else s.id)
  {
  }

  lemma BeginInv(typing: bool)
    ensures Inv(Begin(typing))
  {
  }

  lemma FromStart(o: Options, typing: bool, ms: seq<Move>)
    requires Runs(o, Begin(typing), ms)
    ensures Inv(Exec(o, Begin(typing), ms))
  {
    hide *;
    BeginInv(typing);
    RunInv(o, Begin(typing), ms);
  }

  /** A turn makes at most one final delivery, whatever it replaces has been handed over, and while and
      after it is made no edit is in flight, due, or possible. */
  lemma AtMostOneDelivery(o: Options, typing: bool, ms: seq<Move>)
    requires Runs(o, Begin(typing), ms)
    ensures var s := Exec(o, Begin(typing), ms);
            && |s.deliveries| <= 1
            && (s.deliveries != [] ==>
                  && s.phase == Final && Quiet(s)
                  && (s.deliveries[0].replace.Some? ==> s.deliveries[0].replace.value in s.handed))
  {
    hide Runs, Exec, Live;
    FromStart(o, typing, ms);
    var s := Exec(o, Begin(typing), ms);
    if Waiting(s) {
      assert s.deliveries == [] by { WaitingLive(s); }
    }
  }

  lemma WaitingLive(s: Turn)
    requires Waiting(s)
    ensures s.deliveries == []
  {
  }

  /** After the final phase is reached nothing more is created, edited or delivered. */
  ghost predicate Frozen(s: Turn, t: Turn) {
    t.phase == Final && t.edits == s.edits && t.used == s.used && t.deliveries == s.deliveries
  }

  lemma FinalStands(s: Turn)
    requires Inv(s) && s.phase == Final
    ensures Quiet(s)
    ensures s.stand.Ready? || s.stand.Delivering? || s.stand.OutputTyping? || s.stand.FinishTyping?
  {
  }

  lemma StepFrozen(o: Options, s: Turn, env: Env, e: Event)
    requires Inv(s) && Enabled(s, e) && s.phase == Final
    ensures Frozen(s, Step(o, s, env, e))
  {
    hide Inv, HandleIntermediate, HandleTool, HandleProgress, HandleFinal, RequestEdit, EditAnswered, Apply,
         OnResume, OnTyping, OnPlain, OnDelivered, Created, Finish;
    FinalStands(s);
    match e
    case FinishCalled(success) => FinishFrozen(o, s, env, success);
    case TypingDone(ok) => TypingFrozen(o, s, env, ok);
    case DeliverDone(ok) => DeliveredFrozen(s, ok);
    case _ =>
  }

  lemma FinishFrozen(o: Options, s: Turn, env: Env, success: bool)
    requires s.phase == Final
    ensures Frozen(s, Finish(o, s, env, success)) && Frozen(s, Finished(o, s, env, success))
  {
    hide Finalize, ResetProgress;
  }

  lemma TypingFrozen(o: Options, s: Turn, env: Env, ok: bool)
    requires s.phase == Final && (s.stand.OutputTyping? || s.stand.FinishTyping?)
    ensures Frozen(s, OnTyping(o, s, env, ok))
  {
    hide Finished, SendNow, SendFailed, Deliver;
    if s.stand.FinishTyping? {
      FinishFrozen(o, s.(typing := false), env, s.stand.success);
    }
  }

  lemma DeliveredFrozen(s: Turn, ok: bool)
    requires s.phase == Final && s.stand.Delivering?
    ensures Frozen(s, OnDelivered(s, ok))
  {
  }

  lemma {:induction false} FinalIsFinal(o: Options, s: Turn, ms: seq<Move>)
    requires Inv(s) && Runs(o, s, ms) && s.phase == Final
    ensures Frozen(s, Exec(o, s, ms))
    decreases |ms|
  {
    hide Inv, Step, Enabled;
    if ms != [] {
      StepInv(o, s, ms[0].env, ms[0].event);
      StepFrozen(o, s, ms[0].env, ms[0].event);
      FinalIsFinal(o, Step(o, s, ms[0].env, ms[0].event), ms[1..]);
    }
  }

  // ---- a reset without waiting

  lemma Prepend(o: Options, s: Turn, m: Move, ms: seq<Move>) returns (r: seq<Move>)
    requires Enabled(s, m.event) && Runs(o, Step(o, s, m.env, m.event), ms)
    ensures Runs(o, s, r) && Exec(o, s, r) == Exec(o, Step(o, s, m.env, m.event), ms)
  {
    r := [m] + ms;
    assert r[1..] == ms;
  }

  /** A human message that closes the run makes finish drop the progress message without waiting for
      its edit: the turn can be over while that edit is still in flight. The guarantee is for messages
      handed over to a final text only. */
  lemma HumanCloseLeavesEditInFlight() returns (o: Options, ms: seq<Move>)
    ensures Runs(o, Begin(false), ms)
    ensures var s := Exec(o, Begin(false), ms);
            s.stand.Ready? && !s.task.ticker && s.id.None? && s.edit.Some? && s.deliveries == []
  {
    hide Runs, Exec;
    o := Options(true, true, false, false, true, false, "");
    var env, later := Env(true, "a", false), Env(true, "b", true);
    var out := Output(ProgressText, "working", true, false, false, false, false);
    var s1 := Step(o, Begin(false), env, OutputArrives(out));
    var s2 := Step(o, s1, env, TypingDone(true));
    var s3 := Step(o, s2, env, CreateDone(Some(0)));
    var s4 := Step(o, s3, later, Tick);
    var s5 := Step(o, s4, later, FinishCalled(true));
    ms := [];
    NothingRuns(o, Step(o, s5, later, TypingDone(true)));
    ms := Prepend(o, s5, Move(TypingDone(true), later), ms);
    ms := Prepend(o, s4, Move(FinishCalled(true), later), ms);
    ms := Prepend(o, s3, Move(Tick, later), ms);
    ms := Prepend(o, s2, Move(CreateDone(Some(0)), env), ms);
    ms := Prepend(o, s1, Move(TypingDone(true), env), ms);
    ms := Prepend(o, Begin(false), Move(OutputArrives(out), env), ms);
  }

  lemma NothingRuns(o: Options, s: Turn)
    ensures Runs(o, s, []) && Exec(o, s, []) == s
  {
  }
}
