/** Where the guarantee about edits ends: when a tracked message is dropped with its edit in flight, and
    which edits can still be made once finish has returned. */
module TurnEdits {
  import opened Basics
  import CoalescingTask
  import opened TurnHandover
  import opened TurnSafety

  // ---- edits need an editable channel

  predicate EditsAllowed(o: Options, s: Turn) {
    s.edit.Some? ==> o.editable
  }

  /** While a message is being created on an editable channel none is tracked. */
  predicate Clean(o: Options, s: Turn) {
    EditsAllowed(o, s) && (s.stand.Creating? && o.editable ==> s.id.None?)
  }

  /** What a part of a step does that neither drops nor replaces the tracked message. */
  predicate Keeps(o: Options, s: Turn, t: Turn) {
    t.id == s.id && Clean(o, t)
  }

  lemma RequestKeeps(o: Options, s: Turn, env: Env)
    requires EditsAllowed(o, s)
    ensures var t := RequestEdit(o, s, env);
            EditsAllowed(o, t) && t == s.(task := t.task, edit := t.edit, edits := t.edits)
  {
  }

  lemma EnsuredKeeps(o: Options, s: Turn, env: Env, a: After)
    requires EditsAllowed(o, s) && a.AfterEnsure?
    ensures Keeps(o, s, Ensured(o, s, env, a))
  {
    hide RequestEdit;
    RequestKeeps(o, if a.subagent then StartTicker(o, s) else s, env);
  }

  lemma SentKeeps(o: Options, s: Turn, env: Env, a: After)
    requires EditsAllowed(o, s)
    ensures Keeps(o, s, Sent(o, s, env, a))
  {
    hide Ensured;
    if a.AfterEnsure? {
      EnsuredKeeps(o, StartTicker(o, s).(creating := false, pending := ""), env, a);
    }
  }

  lemma SendFailedKeeps(o: Options, s: Turn, a: After)
    requires EditsAllowed(o, s)
    ensures Keeps(o, s, SendFailed(s, a))
  {
  }

  lemma SendNowKeeps(o: Options, s: Turn, env: Env, text: string, replay: bool, a: After)
    requires EditsAllowed(o, s)
    ensures Keeps(o, s, SendNow(o, s, env, text, replay, a))
  {
    hide RequestEdit;
    RequestKeeps(o, Titled(s, text, replay), env);
  }

  lemma SendProgressKeeps(o: Options, s: Turn, env: Env, text: string, replay: bool, a: After)
    requires EditsAllowed(o, s)
    ensures Keeps(o, s, SendProgress(o, s, env, text, replay, a))
  {
    hide Sent, SendNow;
    SentKeeps(o, s.(pending := ""), env, a);
    SentKeeps(o, s, env, a);
    SendNowKeeps(o, s, env, text, replay, a);
  }

  lemma EnsureKeeps(o: Options, s: Turn, env: Env, a: After)
    requires EditsAllowed(o, s) && a.AfterEnsure?
    ensures Keeps(o, s, Ensure(o, s, env, a))
  {
    hide Ensured, SendProgress;
    EnsuredKeeps(o, s, env, a);
    var heading := if s.pending != "" then s.pending
                   else if s.latest != "" then s.latest
                   else DEFAULT_HEADING;
    SendProgressKeeps(o, s.(creating := true, latest := if s.latest == "" then heading else s.latest),
                      env, heading, false, a);
  }

  lemma CreatedClean(o: Options, s: Turn, env: Env, id: Option<Id>)
    requires EditsAllowed(o, s) && s.stand.Creating?
    ensures Clean(o, Created(o, s, env, id))
  {
    hide Sent;
    if id.Some? {
      SentKeeps(o, Tracked(o, s.(rendered := Some(s.stand.shown)), id.value), env, s.stand.after);
    }
  }

  lemma FinalizeKeeps(o: Options, s: Turn, env: Env, origin: Origin)
    requires EditsAllowed(o, s)
    ensures Keeps(o, s, Finalize(o, s, env, origin))
  {
    hide RequestEdit;
    RequestKeeps(o, StopTicker(s), env);
  }

  lemma HandleOutputKeeps(o: Options, s: Turn, env: Env, out: Output)
    requires Clean(o, s) && s.stand.Ready?
    ensures Keeps(o, s, HandleOutput(o, s, env, out))
  {
    hide SendProgress, Ensure, RequestEdit, Finalize;
    if s.phase != Final {
      var u := s.(hadError := s.hadError || out.poisoned);
      match out.kind
      case Intermediate => IntermediateKeeps(o, u, env, out);
      case ToolActivity =>
        EnsureKeeps(o, u, env, AfterEnsure(true, false, false));
        EnsureKeeps(o, if out.text != "" then StartTicker(o, u) else u, env, AfterEnsure(false, false, false));
      case ProgressText => ProgressKeeps(o, u, env, out);
      case FinalText => FinalizeKeeps(o, u, env, FromOutput(out.error));
    }
  }

  lemma IntermediateKeeps(o: Options, s: Turn, env: Env, out: Output)
    requires EditsAllowed(o, s) && s.stand.Ready?
    ensures Keeps(o, s, HandleIntermediate(o, s, env, out))
  {
    hide SendProgress, RequestEdit;
    RequestKeeps(o, s.(pending := "", latest := out.text, forFinal := out.text), env);
    SendProgressKeeps(o, s.(pending := out.text), env, out.text, true, AfterBuffer(out.text, false));
  }

  lemma ProgressKeeps(o: Options, s: Turn, env: Env, out: Output)
    requires EditsAllowed(o, s) && s.stand.Ready?
    ensures Keeps(o, s, HandleProgress(o, s, env, out))
  {
    hide SendProgress, RequestEdit, Ensure;
    EnsureKeeps(o, if s.latest == "" then s.(latest := DEFAULT_HEADING) else s, env,
                AfterEnsure(true, true, out.error));
    RequestKeeps(o, s.(latest := out.text, forFinal := out.text), env);
    SendProgressKeeps(o, s.(pending := out.text), env, out.text, true, AfterBuffer(out.text, out.error));
  }

  // ---- when a message is dropped with its edit in flight

  /** What makes finish drop the progress message: a human message closes a run that has shown progress
      and nothing else. */
  predicate HumanClose(s: Turn, env: Env, success: bool) {
    success && s.phase == Progress && !s.hadError && s.forFinal != "" && env.humanClose
  }

  /** The step is the one of finish that decides how the turn ends, and it drops the message. */
  predicate FinishDrops(s: Turn, env: Env, e: Event) {
    match e
    case FinishCalled(success) => !s.typing && HumanClose(s, env, success)
    case TypingDone(ok) => ok && s.stand.FinishTyping? && HumanClose(s, env, s.stand.success)
    case _ => false
  }

  /** The edit in flight is of the tracked message. */
  predicate OwnEdit(s: Turn) {
    s.edit.Some? && s.id == Some(s.edit.value.id)
  }

  /** From s to t the tracked message is given up while its edit stays in flight. */
  predicate DropsUnderEdit(s: Turn, t: Turn) {
    OwnEdit(s) && t.edit == s.edit && t.id != s.id
  }

  lemma FinishedId(o: Options, s: Turn, env: Env, success: bool)
    requires EditsAllowed(o, s)
    ensures var t := Finished(o, s, env, success);
            && Clean(o, t) && (HumanClose(s, env, success) ==> t.id.None? && t.edit == s.edit)
            && (!HumanClose(s, env, success) ==> t.id == s.id)
  {
    hide Finalize;
    FinalizeKeeps(o, s.(hadError := s.hadError || !success), env, FromFinish);
  }

  /** After waiting, or after the final answer, nothing is in flight. */
  lemma ResumeId(o: Options, s: Turn, env: Env)
    requires Inv(s) && Clean(o, s) && Resumable(s)
    ensures var t := OnResume(o, s, env);
            Clean(o, t) && (s.edit.None? || t.id == s.id)
  {
    hide SendProgress, Sent;
    match s.stand
    case PublishStart(p) =>
      SendProgressKeeps(o, s.(task := CoalescingTask.AfterCancel(CoalescingTask.AfterStop(s.task))), env,
                        s.pending, true, AfterFlush(p));
    case PublishFlushed(p) =>
    case PublishIdle(p) =>
    case SendEdit(a) => SentKeeps(o, s.(phase := Progress), env, a);
    case Finalizing(origin) =>
  }

  lemma TypingId(o: Options, s: Turn, env: Env, ok: bool)
    requires Inv(s) && Clean(o, s) && Enabled(s, TypingDone(ok))
    ensures var t := OnTyping(o, s, env, ok);
            && Clean(o, t)
            && (if FinishDrops(s, env, TypingDone(ok)) then t.id.None? && t.edit == s.edit
                else s.edit.None? || t.id == s.id)
  {
    hide SendNow, SendFailed, Finished;
    match s.stand
    case SendTyping(text, replay, a) =>
      SendNowKeeps(o, s.(typing := true), env, text, replay, a);
      SendFailedKeeps(o, s, a);
    case DeliverTyping(p, replace) =>
    case OutputTyping(error) =>
    case FinishTyping(success) => FinishedId(o, s.(typing := false), env, success);
  }

  lemma PlainId(o: Options, s: Turn, env: Env, ok: bool)
    requires Clean(o, s) && s.stand.SendPlain?
    ensures Keeps(o, s, OnPlain(o, s, env, ok))
  {
    hide Sent, SendFailed;
    SentKeeps(o, s.(phase := Progress), env, s.stand.after);
    SendFailedKeeps(o, s, s.stand.after);
  }

  lemma TaskId(o: Options, s: Turn, env: Env, e: Event)
    requires Clean(o, s) && Enabled(s, e) && Background(e)
    ensures Keeps(o, s, Step(o, s, env, e))
  {
  }

  lemma StepId(o: Options, s: Turn, env: Env, e: Event)
    requires Inv(s) && Clean(o, s) && Enabled(s, e)
    ensures var t := Step(o, s, env, e);
            && Clean(o, t)
            && (if FinishDrops(s, env, e) then t.id.None? && t.edit == s.edit
                else OwnEdit(s) ==> t.id == s.id)
  {
    hide Inv, HandleOutput, Finished, OnResume, OnTyping, Created, OnPlain, RequestEdit, Apply, EditAnswered;
    match e
    case OutputArrives(out) => HandleOutputKeeps(o, s, env, out);
    case FinishCalled(success) => FinishedId(o, s, env, success);
    case Tick => TaskId(o, s, env, e);
    case DrainLoops => TaskId(o, s, env, e);
    case EditDone(_) => TaskId(o, s, env, e);
    case TaskThrows => TaskId(o, s, env, e);
    case Resumes => ResumeId(o, s, env);
    case TypingDone(ok) => TypingId(o, s, env, ok);
    case CreateDone(id) => CreatedClean(o, s, env, id);
    case PlainDone(ok) => PlainId(o, s, env, ok);
    case DeliverDone(ok) =>
  }

  /** A step drops a tracked message whose edit is in flight exactly when it is the deciding step of finish
      and a human message has closed the run. */
  lemma DropsUnderEditStep(o: Options, s: Turn, env: Env, e: Event)
    requires Inv(s) && Clean(o, s) && Enabled(s, e)
    ensures DropsUnderEdit(s, Step(o, s, env, e)) <==> OwnEdit(s) && FinishDrops(s, env, e)
  {
    hide Inv, Step, Clean, FinishDrops;
    StepId(o, s, env, e);
  }

  lemma {:induction false} RunClean(o: Options, s: Turn, ms: seq<Move>)
    requires Inv(s) && Clean(o, s) && Runs(o, s, ms)
    ensures Clean(o, Exec(o, s, ms))
    decreases |ms|
  {
    hide Inv, Clean, Step, Enabled, FinishDrops;
    if ms != [] {
      StepId(o, s, ms[0].env, ms[0].event);
      StepInv(o, s, ms[0].env, ms[0].event);
      RunClean(o, Step(o, s, ms[0].env, ms[0].event), ms[1..]);
    }
  }

  /** The same, at any point of any turn. */
  lemma DroppedUnderEdit(o: Options, typing: bool, ms: seq<Move>, m: Move)
    requires Runs(o, Begin(typing), ms) && Enabled(Exec(o, Begin(typing), ms), m.event)
    ensures var s := Exec(o, Begin(typing), ms);
            DropsUnderEdit(s, Step(o, s, m.env, m.event)) <==> OwnEdit(s) && FinishDrops(s, m.env, m.event)
  {
    hide *;
    BeginInv(typing);
    BeginClean(o, typing);
    FromStart(o, typing, ms);
    RunClean(o, Begin(typing), ms);
    DropsUnderEditStep(o, Exec(o, Begin(typing), ms), m.env, m.event);
  }

  lemma BeginClean(o: Options, typing: bool)
    ensures Clean(o, Begin(typing))
  {
  }

  // ---- what can still be edited without any handler

  /** Ticks and the edit task, which go on when no handler runs. */
  predicate Background(e: Event) {
    e.Tick? || e.EditDone? || e.DrainLoops? || e.TaskThrows?
  }

  ghost predicate InBackground(ms: seq<Move>) {
    forall m :: m in ms ==> Background(m.event)
  }

  /** A request left by a throw is not looked at before the next one. */
  predicate Pending(t: CoalescingTask.Task) {
    t.requested && t.inFlight
  }

  /** A tracked message with something to show, and a request that the drain will look at or a ticker that
      makes one. */
  predicate MayEdit(o: Options, s: Turn) {
    o.editable && s.id.Some? && s.latest != "" && (Pending(s.task) || s.task.ticker)
  }

  lemma ApplyIdles(o: Options, s: Turn, r: CoalescingTask.Outcome, env: Env)
    requires Core(s) && !(o.editable && s.id.Some? && s.latest != "")
    requires s.edit.Some? ==> r.task.inFlight
    ensures var t := Apply(o, s, r, env); Core(t) && t == s.(task := r.task)
  {
  }

  lemma TickIdles(o: Options, s: Turn, env: Env)
    requires Core(s) && s.task.ticker && !MayEdit(o, s)
    ensures var t := RequestEdit(o, s, env); Core(t) && !MayEdit(o, t) && t.edits == s.edits
  {
    hide Core, Apply;
    assert s.edit.Some? ==> s.task.inFlight by { CoreTask(s); }
    ApplyIdles(o, s, CoalescingTask.AfterRequest(s.task), env);
  }

  lemma CoreTask(s: Turn)
    requires Core(s)
    ensures s.edit.Some? ==> s.task.inFlight
  {
  }

  /** With nothing requested the drain ends. */
  lemma DrainIdles(o: Options, s: Turn, env: Env)
    requires Core(s) && Looping(s) && !MayEdit(o, s)
    ensures var t := Apply(o, s, CoalescingTask.AfterRun(s.task), env);
            Core(t) && !MayEdit(o, t) && t.edits == s.edits
  {
    hide Apply;
    if s.task.requested {
      hide Core;
      ApplyIdles(o, s, CoalescingTask.AfterRun(s.task), env);
    } else {
      DrainEnds(o, s, env);
    }
  }

  lemma DrainEnds(o: Options, s: Turn, env: Env)
    requires s.task.inFlight && !s.task.requested
    ensures Apply(o, s, CoalescingTask.AfterRun(s.task), env) == s.(task := s.task.(inFlight := false))
  {
    hide Sync;
  }

  lemma AnswerIdles(o: Options, s: Turn, ok: bool)
    requires Core(s) && s.edit.Some? && !MayEdit(o, s)
    ensures var t := EditAnswered(s, ok); Core(t) && !MayEdit(o, t) && t.edits == s.edits
  {
  }

  lemma ThrowIdles(o: Options, s: Turn)
    requires Core(s) && Looping(s) && !MayEdit(o, s)
    ensures var t := OnTaskThrows(s); Core(t) && !MayEdit(o, t) && t.edits == s.edits
  {
    hide SendFailed;
    ThrowKeeps(s);
  }

  lemma ThrowKeeps(s: Turn)
    ensures var t := OnTaskThrows(s);
            t == s.(task := CoalescingTask.AfterThrow(s.task), stand := t.stand, pending := t.pending,
                    creating := t.creating)
  {
  }

  lemma BackgroundStep(o: Options, s: Turn, env: Env, e: Event)
    requires Core(s) && Enabled(s, e) && Background(e) && !MayEdit(o, s)
    ensures var t := Step(o, s, env, e); Core(t) && !MayEdit(o, t) && t.edits == s.edits
  {
    hide Core, MayEdit, RequestEdit, Apply, EditAnswered, OnTaskThrows, HandleOutput, Finish, OnResume, OnTyping,
         OnPlain,
         OnDelivered, Created;
    match e
    case Tick => TickIdles(o, s, env);
    case DrainLoops => DrainIdles(o, s, env);
    case EditDone(ok) => AnswerIdles(o, s, ok);
    case TaskThrows => ThrowIdles(o, s);
  }

  lemma {:induction false} BackgroundRun(o: Options, s: Turn, ms: seq<Move>)
    requires Core(s) && Runs(o, s, ms) && InBackground(ms) && !MayEdit(o, s)
    ensures Exec(o, s, ms).edits == s.edits
    decreases |ms|
  {
    hide Core, MayEdit, Step, Enabled;
    if ms != [] {
      assert ms[0] in ms;
      BackgroundStep(o, s, ms[0].env, ms[0].event);
      assert InBackground(ms[1..]) by { assert forall m :: m in ms[1..] ==> m in ms; }
      BackgroundRun(o, Step(o, s, ms[0].env, ms[0].event), ms[1..]);
    }
  }

  /** A rendering that differs from what is shown. */
  function Fresh(s: Turn): Env {
    Env(true, if s.rendered == Some("a") then "b" else "a", false)
  }

  /** From an idle task or one between two runs, the next move of the task issues an edit. */
  lemma NextMoveIssues(o: Options, s: Turn) returns (ms: seq<Move>)
    requires Core(s) && MayEdit(o, s) && s.stand.Ready? && s.edit.None?
    requires s.task.inFlight ==> s.task.requested
    ensures Runs(o, s, ms) && InBackground(ms) && |Exec(o, s, ms).edits| > |s.edits|
  {
    ms := [Move(if s.task.inFlight then DrainLoops else Tick, Fresh(s))];
    var t := Step(o, s, ms[0].env, ms[0].event);
    assert t.edits == s.edits + [s.id.value];
    assert ms[1..] == [] && Runs(o, t, ms[1..]) && Exec(o, s, ms) == t;
  }

  /** The drain ends, or goes straight on to the next edit. */
  lemma LoopIssues(o: Options, s: Turn) returns (ms: seq<Move>)
    requires Core(s) && MayEdit(o, s) && s.stand.Ready? && s.edit.None?
    ensures Runs(o, s, ms) && InBackground(ms) && |Exec(o, s, ms).edits| > |s.edits|
  {
    if s.task.inFlight && !s.task.requested {
      var m := Move(DrainLoops, Fresh(s));
      var t := Step(o, s, m.env, m.event);
      assert Core(t) && MayEdit(o, t) && t.edits == s.edits;
      ms := NextMoveIssues(o, t);
      ms := Before(o, s, m, ms);
    } else {
      ms := NextMoveIssues(o, s);
    }
  }

  lemma Before(o: Options, s: Turn, m: Move, ms: seq<Move>) returns (r: seq<Move>)
    requires Enabled(s, m.event) && Background(m.event) && InBackground(ms)
    requires Runs(o, Step(o, s, m.env, m.event), ms)
    ensures Runs(o, s, r) && InBackground(r) && Exec(o, s, r) == Exec(o, Step(o, s, m.env, m.event), ms)
  {
    r := [m] + ms;
    assert r[1..] == ms;
    assert forall x :: x in r ==> x == m || x in ms;
  }

  lemma SomeIssues(o: Options, s: Turn) returns (ms: seq<Move>)
    requires Core(s) && MayEdit(o, s) && s.stand.Ready?
    ensures Runs(o, s, ms) && InBackground(ms) && |Exec(o, s, ms).edits| > |s.edits|
  {
    if s.edit.Some? {
      var m := Move(EditDone(true), Fresh(s));
      var t := Step(o, s, m.env, m.event);
      assert Core(t) && MayEdit(o, t) && t.edits == s.edits && t.edit.None? && t.stand.Ready?;
      ms := LoopIssues(o, t);
      ms := Before(o, s, m, ms);
    } else {
      ms := LoopIssues(o, s);
    }
  }

  /** Between two handlers, and after the last one, another edit can be issued without any of them exactly
      when the channel can edit, a message with a text is tracked, and a request is pending or the ticker
      is on. */
  lemma EditsWithoutHandler(o: Options, s: Turn)
    requires Core(s) && s.stand.Ready?
    ensures (exists ms :: Runs(o, s, ms) && InBackground(ms) && |Exec(o, s, ms).edits| > |s.edits|)
            <==> MayEdit(o, s)
  {
    hide Runs, Exec, InBackground;
    if MayEdit(o, s) {
      var ms := SomeIssues(o, s);
    } else {
      forall ms | Runs(o, s, ms) && InBackground(ms) ensures Exec(o, s, ms).edits == s.edits {
        BackgroundRun(o, s, ms);
      }
    }
  }

  // ---- once finish has returned

  /** The step is one of finish itself, before anything it publishes or finalizes. */
  predicate Deciding(s: Turn, e: Event) {
    e.FinishCalled? || (e.TypingDone? && s.stand.FinishTyping?)
  }

  /** The step makes finish return, and not throw. */
  predicate FinishReturns(o: Options, s: Turn, env: Env, e: Event)
    requires Enabled(s, e)
  {
    && Step(o, s, env, e).stand.Ready?
    && (match e
        case FinishCalled(_) => true
        case TypingDone(ok) =>
          ok && (s.stand.FinishTyping? || (s.stand.DeliverTyping? && s.stand.p.origin == FromFinish))
        case Resumes => s.stand == Finalizing(FromFinish)
        case DeliverDone(ok) => ok && s.stand == Delivering(FromFinish)
        case _ => false)
  }

  lemma DecidedReturn(o: Options, s: Turn, env: Env, success: bool)
    requires Finished(o, s, env, success).stand.Ready?
    ensures var t := Finished(o, s, env, success);
            && !t.task.ticker && t.edit == s.edit
            && t.task.inFlight == s.task.inFlight
            && t.task.requested == (s.task.requested && !HumanClose(s, env, success))
            && (!HumanClose(s, env, success) ==> t.id == s.id && t.latest == s.latest)
            && (HumanClose(s, env, success) ==> t.id.None?)
  {
    hide RequestEdit;
    assert Finalize(o, s.(hadError := s.hadError || !success), env, FromFinish).stand.Finalizing?;
    hide Finalize;
  }

  /** When finish returns, the ticker is off. An edit is then in flight exactly when finish published and
      finalized nothing and one was in flight before; and another can follow exactly when, in that case, a
      request was pending on an editable, tracked message with a text that no human message made finish
      drop. */
  lemma EditsAfterFinish(o: Options, s: Turn, env: Env, e: Event)
    requires Inv(s) && Enabled(s, e) && FinishReturns(o, s, env, e)
    ensures var t := Step(o, s, env, e);
            && !t.task.ticker
            && (t.edit.Some? <==> Deciding(s, e) && s.edit.Some?)
            && (MayEdit(o, t) <==>
                  && Deciding(s, e) && !FinishDrops(s, env, e)
                  && o.editable && s.id.Some? && s.latest != "" && Pending(s.task))
  {
    hide Finished, HandleOutput, RequestEdit, SendNow, SendFailed, Publishing, Sent, Created;
    match e
    case FinishCalled(success) => DecidedReturn(o, s, env, success);
    case TypingDone(ok) =>
      if s.stand.FinishTyping? {
        DecidedReturn(o, s.(typing := false), env, s.stand.success);
      }
    case Resumes =>
    case DeliverDone(ok) =>
  }

  // ---- an edit issued after finish

  /** So, once finish has returned, another edit can be issued exactly then. */
  lemma EditsIssuedAfterFinish(o: Options, s: Turn, env: Env, e: Event)
    requires Inv(s) && Enabled(s, e) && FinishReturns(o, s, env, e)
    ensures var t := Step(o, s, env, e);
            (exists ms :: Runs(o, t, ms) && InBackground(ms) && |Exec(o, t, ms).edits| > |t.edits|)
            <==> && Deciding(s, e) && !FinishDrops(s, env, e)
                 && o.editable && s.id.Some? && s.latest != "" && Pending(s.task)
  {
    var t := Step(o, s, env, e);
    assert t.stand.Ready?;
    hide Step, Enabled, FinishReturns, Deciding, FinishDrops, MayEdit, Runs, Exec, InBackground;
    StepInv(o, s, env, e);
    assert Core(t);
    EditsAfterFinish(o, s, env, e);
    EditsWithoutHandler(o, t);
  }

  const PLAIN := Options(true, true, false, false, true, false, "")

  const ENV := Env(true, "c", false)

  /** A tool activity has made the message, and two ticks have requested edits of it. */
  ghost function Ticked(): Turn {
    Turn(CoalescingTask.Task(true, true, true), Some(Edit(0, "b")), Some(0), DEFAULT_HEADING, Some("a"), "", "",
         0, false, Progress, false, true, Ready, {0}, {}, [0], [])
  }

  /** The message is shown and its ticker is on. */
  ghost function Shown(): Turn {
    Turn(CoalescingTask.Task(false, false, true), None, Some(0), DEFAULT_HEADING, Some("a"), "", "",
         0, false, Progress, false, true, Ready, {0}, {}, [], [])
  }

  lemma TicksFromShown(ms: seq<Move>) returns (r: seq<Move>)
    requires Runs(PLAIN, Ticked(), ms) && ms != []
    ensures Runs(PLAIN, Shown(), r) && Exec(PLAIN, Shown(), r) == Exec(PLAIN, Ticked(), ms)
    ensures r != [] && r[|r| - 1] == ms[|ms| - 1]
  {
    hide Runs, Exec;
    var first := Env(true, "b", false);
    var s := Step(PLAIN, Shown(), first, Tick);
    assert Step(PLAIN, s, ENV, Tick) == Ticked();
    r := Earlier(PLAIN, s, Move(Tick, ENV), ms);
    r := Earlier(PLAIN, Shown(), Move(Tick, first), r);
  }

  lemma ReachesTicked(ms: seq<Move>) returns (r: seq<Move>)
    requires Runs(PLAIN, Ticked(), ms) && ms != []
    ensures Runs(PLAIN, Begin(false), r) && Exec(PLAIN, Begin(false), r) == Exec(PLAIN, Ticked(), ms)
    ensures r != [] && r[|r| - 1] == ms[|ms| - 1]
  {
    hide Runs, Exec;
    var e0 := Env(true, "a", false);
    var out := Output(ToolActivity, "x", true, false, false, false, false);
    var s0 := Begin(false);
    var s1 := Step(PLAIN, s0, e0, OutputArrives(out));
    var s2 := Step(PLAIN, s1, e0, TypingDone(true));
    assert Step(PLAIN, s2, e0, CreateDone(Some(0))) == Shown();
    r := TicksFromShown(ms);
    r := Earlier(PLAIN, s2, Move(CreateDone(Some(0)), e0), r);
    r := Earlier(PLAIN, s1, Move(TypingDone(true), e0), r);
    r := Earlier(PLAIN, s0, Move(OutputArrives(out), e0), r);
  }

  /** Finish then returns with nothing to replay: the edit in flight is answered, and the next one is
      issued. No human message is needed. */
  lemma EditIssuedAfterFinish() returns (ms: seq<Move>, after: seq<Move>)
    ensures Runs(PLAIN, Begin(false), ms)
    ensures var s := Exec(PLAIN, Begin(false), ms);
            && s.stand.Ready? && !s.task.ticker && s.phase == Progress && s.deliveries == []
            && ms != [] && ms[|ms| - 1].event == TypingDone(true)
            && Runs(PLAIN, s, after) && InBackground(after) && |Exec(PLAIN, s, after).edits| > |s.edits|
  {
    hide Runs, Exec, InBackground;
    var s5 := Ticked();
    var s6 := Step(PLAIN, s5, ENV, FinishCalled(true));
    var s7 := Step(PLAIN, s6, ENV, TypingDone(true));
    ms := Last(PLAIN, s6, Move(TypingDone(true), ENV));
    ms := Earlier(PLAIN, s5, Move(FinishCalled(true), ENV), ms);
    ms := ReachesTicked(ms);
    after := SomeIssues(PLAIN, s7);
  }

  lemma Last(o: Options, s: Turn, m: Move) returns (ms: seq<Move>)
    requires Enabled(s, m.event)
    ensures Runs(o, s, ms) && Exec(o, s, ms) == Step(o, s, m.env, m.event) && ms == [m]
  {
    ms := [m];
    NothingRuns(o, Step(o, s, m.env, m.event));
    assert ms[1..] == [];
  }

  lemma Earlier(o: Options, s: Turn, m: Move, ms: seq<Move>) returns (r: seq<Move>)
    requires Enabled(s, m.event) && Runs(o, Step(o, s, m.env, m.event), ms) && ms != []
    ensures Runs(o, s, r) && Exec(o, s, r) == Exec(o, Step(o, s, m.env, m.event), ms)
    ensures r != [] && r[|r| - 1] == ms[|ms| - 1]
  {
    r := [m] + ms;
    assert r[1..] == ms;
  }
}
