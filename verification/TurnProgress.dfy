/** What every step of a turn does to each part of its progress: one rule a field, by the event alone, whatever
    handler the event runs in. */
module TurnProgress {
  import opened Basics
  import CoalescingTask
  import opened TurnHandover
  import opened TurnSafety
  import TurnEdits
  import TurnDeliveries

  // ---- what an event is

  predicate Accepts(s: Turn, e: Event) {
    e.OutputArrives? && s.phase != Final
  }

  /** A visible progress text of the agent itself. */
  predicate Heading(out: Output) {
    (out.kind == Intermediate || (out.kind == ProgressText && !out.subagent)) && out.text != ""
  }

  /** Activity that needs a progress message but is not its text. */
  predicate Activity(out: Output) {
    out.kind == ToolActivity || (out.kind == ProgressText && out.subagent)
  }

  /** The output brings the first progress message on its way. */
  predicate StartsSend(s: Turn, m: Move) {
    && Accepts(s, m.event) && (Heading(m.event.out) || Activity(m.event.out))
    && s.id.None? && m.env.mayDeliver
  }

  /** The output is taken in without anything being sent. */
  predicate TakenIn(s: Turn, m: Move) {
    Accepts(s, m.event) && Activity(m.event.out) && !(s.id.None? && m.env.mayDeliver)
  }

  /** The step of finish that decides how the turn ends. */
  predicate Decides(s: Turn, e: Event) {
    (e.FinishCalled? && !s.typing) || (e == TypingDone(true) && s.stand.FinishTyping?)
  }

  function Succeeded(s: Turn, e: Event): bool
    requires Decides(s, e)
  {
    match e
    case FinishCalled(success) => success
    case TypingDone(_) => s.stand.success
  }

  /** Finish brings the progress message up to date and leaves it standing. */
  predicate FinishKeeps(o: Options, s: Turn, m: Move) {
    && Decides(s, m.event) && Succeeded(s, m.event) && s.phase == Progress && !s.hadError && s.forFinal != ""
    && !m.env.humanClose && (o.paired || !o.allowReplay)
  }

  predicate FinishSilent(o: Options, s: Turn, m: Move) {
    Decides(s, m.event) && TurnDeliveries.AtFinish(o, s, m.env, Succeeded(s, m.event)).None?
  }

  /** A final output that was nothing but markup. */
  predicate FinalWithoutText(s: Turn, e: Event) {
    Accepts(s, e) && e.out.kind == FinalText && e.out.text == "" && e.out.raw
  }

  /** The progress message is left to itself: it was handed over, brought up to date for good, or dropped. */
  predicate Forgets(s: Turn, m: Move) {
    || (m.event.Resumes? && (s.stand.PublishIdle? || s.stand.Finalizing?))
    || TurnEdits.FinishDrops(s, m.env, m.event)
  }

  /** The answer to an edit of the message that is still tracked. */
  predicate Answers(s: Turn, e: Event) {
    e.EditDone? && s.edit.Some? && s.id == Some(s.edit.value.id)
  }

  predicate Shows(e: Event) {
    (e.CreateDone? && e.id.Some?) || e == PlainDone(true)
  }

  // ---- the rules

  function Tracked(s: Turn, m: Move): Option<Id> {
    if m.event.CreateDone? && m.event.id.Some? then m.event.id else if Forgets(s, m) then None else s.id
  }

  /** The text shown is the latest heading that was sent out or put on the tracked message; before there is one,
      activity brings in the default. */
  function Latest(s: Turn, m: Move): string {
    if Accepts(s, m.event) && Heading(m.event.out) then
      if s.id.Some? || (m.env.mayDeliver && s.typing) then m.event.out.text else s.latest
    else if Accepts(s, m.event) && Activity(m.event.out) && s.latest == "" then DEFAULT_HEADING
    else if m.event == TypingDone(true) && s.stand.SendTyping? then s.stand.text
    else if Forgets(s, m) then ""
    else s.latest
  }

  /** The text that finish may replay: the latest one of the agent itself that was sent out or put on the tracked
      message, until a delivery or the end of the message. */
  function Replayable(s: Turn, m: Move): string {
    if Accepts(s, m.event) && Heading(m.event.out) then
      if s.id.Some? || (m.env.mayDeliver && s.typing) then m.event.out.text else s.forFinal
    else if m.event == TypingDone(true) && s.stand.SendTyping? && s.stand.after.AfterBuffer? then s.stand.text
    else if m.event.Resumes? && s.stand.Finalizing? then ""
    else if TurnDeliveries.AtDelivery(s, m.event) && !m.env.mayDeliver then ""
    else if m.event == DeliverDone(true) then ""
    else s.forFinal
  }

  /** What the tracked message is known to show. */
  function Rendered(o: Options, s: Turn, m: Move): Option<string> {
    if m.event.CreateDone? && s.stand.Creating? then Some(s.stand.shown)
    else if SendsNow(s, m) && !o.trackable then Some(m.env.shown)
    else if Answers(s, m.event) then (if m.event.ok then Some(s.edit.value.shown) else None)
    else if Forgets(s, m) then None
    else s.rendered
  }

  /** Edits of the tracked message that have failed since one of them succeeded. */
  function Failures(s: Turn, m: Move): nat {
    if Answers(s, m.event) then (if m.event.ok then 0 else s.fails + 1)
    else if Forgets(s, m) then 0
    else s.fails
  }

  predicate StopsTicker(o: Options, s: Turn, m: Move) {
    || (m.event.Resumes? && s.stand.PublishStart?) || FinalWithoutText(s, m.event) || FinishSilent(o, s, m)
    || Forgets(s, m)
    || (Answers(s, m.event) && !m.event.ok && s.fails >= 2)
  }

  predicate StartsTicker(s: Turn, m: Move) {
    || (m.event.CreateDone? && m.event.id.Some?)
    || (m.event == PlainDone(true) && s.stand.SendPlain? && s.stand.after.AfterEnsure?)
    || (TakenIn(s, m) && (m.event.out.subagent || s.id.None?))
    || (Accepts(s, m.event) && m.event.out.kind == ToolActivity && !m.event.out.subagent && m.event.out.text != "")
  }

  predicate Ticking(o: Options, s: Turn, m: Move) {
    if StopsTicker(o, s, m) then false else s.task.ticker || (o.editable && StartsTicker(s, m))
  }

  /** The step asks for an edit of the tracked message. */
  predicate Requests(o: Options, s: Turn, m: Move) {
    || m.event.Tick? || FinalWithoutText(s, m.event) || FinishKeeps(o, s, m)
    || (Accepts(s, m.event) && s.id.Some?
        && (Heading(m.event.out) || (m.event.out.kind == ProgressText && m.event.out.subagent)))
    || (m.event.CreateDone? && m.event.id.Some? && s.stand.Creating?
        && s.stand.after.AfterEnsure? && s.stand.after.progress)
  }

  predicate Cancels(s: Turn, m: Move) {
    Forgets(s, m) || (m.event.Resumes? && (s.stand.PublishStart? || s.stand.PublishFlushed?))
  }

  /** The edit task with its requests. */
  function Working(o: Options, s: Turn, m: Move): CoalescingTask.Task {
    CoalescingTask.Task(
      if Requests(o, s, m) then s.task.inFlight
      else if Cancels(s, m) || m.event.DrainLoops? then false
      else s.task.requested,
      if Requests(o, s, m) then true
      else if m.event.DrainLoops? then s.task.requested
      else if m.event.TaskThrows? then false
      else s.task.inFlight,
      Ticking(o, s, m))
  }

  /** A run of the edit task begins. */
  predicate RunBegins(o: Options, s: Turn, m: Move) {
    (Requests(o, s, m) && !s.task.inFlight) || (m.event.DrainLoops? && s.task.requested)
  }

  /** It issues an edit exactly when the run may still deliver and the tracked message is not known to show
      what it should. */
  predicate Issues(o: Options, s: Turn, m: Move) {
    && RunBegins(o, s, m) && m.env.mayDeliver && o.editable && Tracked(s, m).Some?
    && Rendered(o, s, m) != Some(m.env.shown)
  }

  function InFlight(o: Options, s: Turn, m: Move): Option<Edit> {
    if Issues(o, s, m) then Some(Edit(Tracked(s, m).value, m.env.shown))
    else if m.event.EditDone? then None
    else s.edit
  }

  function Issued(o: Options, s: Turn, m: Move): seq<Id> {
    s.edits + if Issues(o, s, m) then [Tracked(s, m).value] else []
  }

  function Phased(s: Turn, m: Move): Phase {
    if Shows(m.event) then Progress else if TurnDeliveries.AtDelivery(s, m.event) then Final else s.phase
  }

  predicate Typing(s: Turn, m: Move) {
    if m.event == TypingDone(true) then s.stand.SendTyping? || s.stand.DeliverTyping? else s.typing
  }

  function Created(e: Event): set<Id> {
    if e.CreateDone? then TurnDeliveries.Ids(e.id) else {}
  }

  function GivenUp(s: Turn, m: Move): set<Id> {
    if m.event.Resumes? && s.stand.PublishIdle? then TurnDeliveries.Ids(s.id) else {}
  }

  // ---- how a progress text is sent

  /** The text goes out now: the typing indicator is on. */
  predicate SendsNow(s: Turn, m: Move) {
    (StartsSend(s, m) && s.typing) || (m.event == TypingDone(true) && s.stand.SendTyping?)
  }

  function TextOf(s: Turn, out: Output): string {
    if Heading(out) then out.text else if s.latest != "" then s.latest else DEFAULT_HEADING
  }

  function AfterFor(out: Output): After {
    var error := out.kind == ProgressText && out.error;
    if Heading(out) then AfterBuffer(out.text, error)
    else AfterEnsure(out.subagent, out.kind == ProgressText, error)
  }

  predicate SendFails(s: Turn, e: Event) {
    (e == PlainDone(false) && s.stand.SendPlain?) || (e == TypingDone(false) && s.stand.SendTyping?)
  }

  /** The first progress text of a turn waits for the typing indicator, then for the channel, and falls back to a
      plain message where no message can be tracked. */
  predicate SendsOn(o: Options, s: Turn, m: Move, stand: Stand) {
    && (StartsSend(s, m) && !s.typing ==>
          var out := m.event.out;
          stand == SendTyping(TextOf(s, out), Heading(out), AfterFor(out)))
    && (SendsNow(s, m) ==>
          var after := if m.event.OutputArrives? then AfterFor(m.event.out) else s.stand.after;
          stand == if o.trackable then Creating(m.env.shown, after) else SendPlain(after))
    && (m.event == CreateDone(None) && s.stand.Creating? ==> stand == SendPlain(s.stand.after))
    && (Shows(m.event) || SendFails(s, m.event) ==> stand == Ready)
    && (Accepts(s, m.event) && m.event.out.kind != FinalText && !StartsSend(s, m) ==> stand == Ready)
  }

  // ---- all of a step

  predicate Told(o: Options, s: Turn, m: Move, t: Turn) {
    TextTold(o, s, m, t) && WorkTold(o, s, m, t) && SendsOn(o, s, m, t.stand)
  }

  predicate TextTold(o: Options, s: Turn, m: Move, t: Turn) {
    && t.id == Tracked(s, m) && t.latest == Latest(s, m) && t.forFinal == Replayable(s, m)
    && t.rendered == Rendered(o, s, m) && t.fails == Failures(s, m)
    && t.phase == Phased(s, m) && t.typing == Typing(s, m)
    && t.used == s.used + Created(m.event) && t.handed == s.handed + GivenUp(s, m)
  }

  predicate WorkTold(o: Options, s: Turn, m: Move, t: Turn) {
    t.task == Working(o, s, m) && t.edit == InFlight(o, s, m) && t.edits == Issued(o, s, m)
  }

  // ---- handlers run one at a time

  predicate Sending(stand: Stand) {
    stand.SendTyping? || stand.SendEdit? || stand.SendPlain? || stand.Creating?
  }

  /** Only the first progress message is ever being sent: while one is, none is tracked, and its text is the only
      one held back. */
  predicate SendingFirst(s: Turn)
    requires Sending(s.stand)
  {
    && s.id.None? && !s.stand.SendEdit? && !s.stand.after.AfterFlush? && s.phase != Final
    && (s.stand.after.AfterBuffer? ==> s.pending == s.stand.after.text && s.pending != "" && !s.creating)
    && (s.stand.after.AfterEnsure? ==> s.pending == "" && s.creating && s.latest != "")
    && (if s.stand.SendTyping? then
          && s.stand.replay == s.stand.after.AfterBuffer?
          && s.stand.text == (if s.stand.after.AfterBuffer? then s.stand.after.text else s.latest)
        else s.latest != "")
  }

  /** Otherwise no text is held back and no message is being created. */
  predicate Serial(s: Turn) {
    && (if Sending(s.stand) then SendingFirst(s) else s.pending == "" && !s.creating)
    && (s.id.Some? ==> s.latest != "") && (s.id.None? ==> s.fails == 0)
    && (s.stand.PublishStart? || s.stand.PublishFlushed? || s.stand.PublishIdle? || s.stand.Finalizing? ==>
          s.phase != Final)
  }

  /** A request made of the edit task, when it is idle. */
  lemma RequestIdle(o: Options, s: Turn, env: Env)
    requires !s.task.inFlight && (s.id.Some? ==> s.latest != "")
    ensures var t := RequestEdit(o, s, env);
            var issues := env.mayDeliver && o.editable && s.id.Some? && s.rendered != Some(env.shown);
            && t == s.(task := s.task.(requested := false, inFlight := true), edit := t.edit, edits := t.edits)
            && t.edit == (if issues then Some(Edit(s.id.value, env.shown)) else s.edit)
            && t.edits == s.edits + (if issues then [s.id.value] else [])
  {
  }

  lemma RequestBusy(o: Options, s: Turn, env: Env)
    requires s.task.inFlight
    ensures RequestEdit(o, s, env) == s.(task := s.task.(requested := true))
  {
  }

  // ---- outputs

  /** An output is none of the other things. */
  lemma OnlyOutput(o: Options, s: Turn, m: Move)
    requires m.event.OutputArrives?
    ensures !Forgets(s, m) && !Answers(s, m.event) && !FinishKeeps(o, s, m) && !FinishSilent(o, s, m)
    ensures !Shows(m.event) && !SendFails(s, m.event) && !TurnDeliveries.AtDelivery(s, m.event) && !Cancels(s, m)
  {
  }

  /** A step that has nothing to do with the edit task. */
  lemma Unworked(o: Options, s: Turn, m: Move)
    requires !Requests(o, s, m) && !Cancels(s, m) && !StopsTicker(o, s, m)
    requires m.event.OutputArrives?
    ensures Working(o, s, m) == s.task.(ticker := s.task.ticker || (o.editable && StartsTicker(s, m)))
    ensures InFlight(o, s, m) == s.edit && Issued(o, s, m) == s.edits
  {
  }

  /** How the first progress text of a handler sets out. */
  function SetsOut(o: Options, s: Turn, m: Move): Turn
    requires StartsSend(s, m)
  {
    var out, after := m.event.out, AfterFor(m.event.out);
    var text := TextOf(s, out);
    var u := s.(pending := if Heading(out) then text else "", creating := Activity(out));
    if !s.typing then
      u.(latest := if Heading(out) then s.latest else text, stand := SendTyping(text, Heading(out), after))
    else
      var titled := u.(latest := text, forFinal := if Heading(out) then text else s.forFinal);
      if o.trackable then titled.(stand := Creating(m.env.shown, after))
      else titled.(rendered := Some(m.env.shown), stand := SendPlain(after))
  }

  lemma SetsOutTold(o: Options, s: Turn, m: Move, t: Turn)
    requires Serial(s) && s.stand.Ready? && StartsSend(s, m)
    requires t == SetsOut(o, s, m).(hadError := t.hadError, task := Working(o, s, m))
    ensures Told(o, s, m, t) && Serial(t)
  {
    OnlyOutput(o, s, m);
    assert WorkTold(o, s, m, t) by {
      Unworked(o, s, m);
      hide TextTold, SendsOn, Latest, Replayable, Rendered, Failures;
    }
    hide WorkTold, TextTold, SendsOn, Serial, SetsOut, Working;
    SetsOutTexts(o, s, m, t);
    SetsOutSends(o, s, m, t);
  }

  lemma SetsOutTexts(o: Options, s: Turn, m: Move, t: Turn)
    requires Serial(s) && s.stand.Ready? && StartsSend(s, m)
    requires t == SetsOut(o, s, m).(hadError := t.hadError, task := t.task)
    ensures TextTold(o, s, m, t)
  {
    OnlyOutput(o, s, m);
    hide Forgets, Answers, Shows, TurnDeliveries.AtDelivery;
  }

  lemma SetsOutSends(o: Options, s: Turn, m: Move, t: Turn)
    requires Serial(s) && s.stand.Ready? && StartsSend(s, m)
    requires t == SetsOut(o, s, m).(hadError := t.hadError, task := t.task)
    ensures SendsOn(o, s, m, t.stand) && Serial(t)
  {
  }

  lemma HeadingSetsOut(o: Options, s: Turn, m: Move)
    requires Serial(s) && s.stand.Ready? && StartsSend(s, m) && Heading(m.event.out)
    ensures HandleOutput(o, s, m.env, m.event.out)
            == SetsOut(o, s, m).(hadError := s.hadError || m.event.out.poisoned)
  {
    hide RequestEdit, TurnHandover.Sent, Ensure, HandleTool, HandleFinal;
  }

  lemma EnsureSetsOut(o: Options, s: Turn, env: Env, a: After)
    requires a.AfterEnsure? && s.id.None? && !s.creating && s.pending == "" && env.mayDeliver
    ensures Ensure(o, s, env, a)
            == var text := if s.latest == "" then DEFAULT_HEADING else s.latest;
               var u := s.(creating := true, latest := text);
               if !s.typing then u.(stand := SendTyping(text, false, a))
               else if o.trackable then u.(stand := Creating(env.shown, a))
               else u.(rendered := Some(env.shown), stand := SendPlain(a))
  {
    hide TurnHandover.Sent, RequestEdit;
  }

  lemma ToolSetsOut(o: Options, s: Turn, m: Move)
    requires Serial(s) && s.stand.Ready? && StartsSend(s, m) && m.event.out.kind == ToolActivity
    ensures HandleOutput(o, s, m.env, m.event.out)
            == SetsOut(o, s, m).(hadError := s.hadError || m.event.out.poisoned, task := Working(o, s, m))
  {
    var out := m.event.out;
    OnlyOutput(o, s, m);
    Unworked(o, s, m);
    var u := s.(hadError := s.hadError || out.poisoned);
    EnsureSetsOut(o, u, m.env, AfterEnsure(true, false, false));
    EnsureSetsOut(o, StartTicker(o, u), m.env, AfterEnsure(false, false, false));
    EnsureSetsOut(o, u, m.env, AfterEnsure(false, false, false));
    hide Working, Forgets, Answers, FinishKeeps, FinishSilent, Cancels, Ensure, HandleIntermediate, HandleProgress,
         HandleFinal;
  }

  lemma SubagentSetsOut(o: Options, s: Turn, m: Move)
    requires Serial(s) && s.stand.Ready? && StartsSend(s, m) && m.event.out.kind == ProgressText && m.event.out.subagent
    ensures HandleOutput(o, s, m.env, m.event.out)
            == SetsOut(o, s, m).(hadError := s.hadError || m.event.out.poisoned, task := Working(o, s, m))
  {
    var out := m.event.out;
    assert Working(o, s, m) == s.task by {
      OnlyOutput(o, s, m);
      Unworked(o, s, m);
    }
    var u := s.(hadError := s.hadError || out.poisoned);
    EnsureSetsOut(o, if s.latest == "" then u.(latest := DEFAULT_HEADING) else u, m.env,
                  AfterEnsure(true, true, out.error));
    hide Working, Ensure, HandleIntermediate, HandleTool, HandleFinal;
  }

  lemma HeadingPutOn(o: Options, s: Turn, m: Move)
    requires Serial(s) && s.stand.Ready? && Accepts(s, m.event) && Heading(m.event.out) && s.id.Some?
    ensures var t := HandleOutput(o, s, m.env, m.event.out);
            t == RequestEdit(o, s.(latest := m.event.out.text, forFinal := m.event.out.text), m.env)
                 .(hadError := t.hadError)
  {
    var u := s.(latest := m.event.out.text, forFinal := m.event.out.text);
    RequestIgnoresError(o, u, m.env, s.hadError || m.event.out.poisoned);
    hide RequestEdit, SendProgress, Ensure, HandleTool, HandleFinal;
  }

  lemma RequestTold(o: Options, s: Turn, m: Move, u: Turn)
    requires Requests(o, s, m) && !m.event.EditDone? && !m.event.DrainLoops?
    requires u.id == Tracked(s, m) && (u.id.Some? ==> u.latest != "")
    requires u.rendered == Rendered(o, s, m) && u.edit == s.edit && u.edits == s.edits
    requires u.task == s.task.(ticker := Ticking(o, s, m))
    ensures WorkTold(o, s, m, RequestEdit(o, u, m.env))
    ensures var t := RequestEdit(o, u, m.env); t == u.(task := t.task, edit := t.edit, edits := t.edits)
  {
    hide Requests, Ticking, Tracked, Rendered, Cancels, RequestEdit;
    if s.task.inFlight {
      RequestBusy(o, u, m.env);
    } else {
      RequestIdle(o, u, m.env);
    }
  }

  lemma HeadingPutOnTold(o: Options, s: Turn, m: Move)
    requires Serial(s) && s.stand.Ready? && Accepts(s, m.event) && Heading(m.event.out) && s.id.Some?
    ensures var t := HandleOutput(o, s, m.env, m.event.out); Told(o, s, m, t) && Serial(t)
  {
    OnlyOutput(o, s, m);
    HeadingPutOn(o, s, m);
    hide HandleOutput, RequestEdit, Forgets, Answers, FinishKeeps, FinishSilent, Shows, SendFails,
         TurnDeliveries.AtDelivery, Cancels, Working, InFlight, Issued;
    RequestTold(o, s, m, s.(latest := m.event.out.text, forFinal := m.event.out.text));
  }

  lemma HeadingIgnored(o: Options, s: Turn, m: Move)
    requires Serial(s) && s.stand.Ready? && Accepts(s, m.event) && Heading(m.event.out)
    requires s.id.None? && !m.env.mayDeliver
    ensures var t := HandleOutput(o, s, m.env, m.event.out); t == s.(hadError := t.hadError)
  {
    hide RequestEdit, Ensured, HandleTool, HandleFinal;
  }

  /** A step that changes nothing here. */
  lemma NothingTold(o: Options, s: Turn, m: Move, t: Turn)
    requires Serial(s) && s.stand.Ready? && m.event.OutputArrives? && t == s.(hadError := t.hadError, stand := t.stand)
    requires s.phase == Final || (!Activity(m.event.out) && (Heading(m.event.out) ==> s.id.None? && !m.env.mayDeliver))
    requires Accepts(s, m.event) && m.event.out.kind != FinalText ==> t.stand.Ready?
    requires !FinalWithoutText(s, m.event) && !Sending(t.stand) && (s.phase == Final ==> t.stand == s.stand)
    ensures Told(o, s, m, t) && Serial(t)
  {
    OnlyOutput(o, s, m);
    Unworked(o, s, m);
    hide Forgets, Answers, FinishKeeps, FinishSilent, Shows, SendFails, TurnDeliveries.AtDelivery, Cancels,
         Working, InFlight, Issued;
  }

  lemma HeadingTold(o: Options, s: Turn, m: Move)
    requires Serial(s) && s.stand.Ready? && Accepts(s, m.event) && Heading(m.event.out)
    ensures var t := HandleOutput(o, s, m.env, m.event.out); Told(o, s, m, t) && Serial(t)
  {
    hide HandleOutput, Told, Serial;
    OnlyOutput(o, s, m);
    if s.id.Some? {
      HeadingPutOnTold(o, s, m);
    } else if m.env.mayDeliver {
      HeadingSetsOut(o, s, m);
      Unworked(o, s, m);
      SetsOutTold(o, s, m, HandleOutput(o, s, m.env, m.event.out));
    } else {
      HeadingIgnored(o, s, m);
      NothingTold(o, s, m, HandleOutput(o, s, m.env, m.event.out));
    }
  }

  // ---- activity

  /** What activity brings in, apart from an edit and a message to send. */
  function BroughtIn(o: Options, s: Turn, m: Move): Turn {
    s.(latest := Latest(s, m), task := s.task.(ticker := Ticking(o, s, m)))
  }

  lemma EnsureTakesIn(o: Options, s: Turn, env: Env, a: After)
    requires a.AfterEnsure? && !s.creating && s.pending == "" && (s.id.Some? || !env.mayDeliver)
    ensures Ensure(o, s, env, a)
            == var u := if s.id.None? && s.latest == "" then s.(latest := DEFAULT_HEADING) else s;
               var v := if s.id.None? || a.subagent then StartTicker(o, u) else u;
               (if a.progress && v.id.Some? then RequestEdit(o, v, env) else v)
               .(stand := Ready, hadError := s.hadError || a.error)
  {
    hide RequestEdit, SendNow;
    if s.id.Some? {
      hide SendProgress;
      RequestOnlyWorks(o, if a.subagent then StartTicker(o, s) else s, env);
    }
  }

  lemma RequestOnlyWorks(o: Options, s: Turn, env: Env)
    ensures var t := RequestEdit(o, s, env); t == s.(task := t.task, edit := t.edit, edits := t.edits)
  {
  }

  lemma ToolBrings(o: Options, s: Turn, m: Move)
    requires Serial(s) && s.stand.Ready? && TakenIn(s, m) && m.event.out.kind == ToolActivity
    ensures var out := m.event.out;
            BroughtIn(o, s, m)
            == s.(latest := if s.latest == "" then DEFAULT_HEADING else s.latest,
                  task := CoalescingTask.AfterStart(
                    s.task, o.editable && (out.subagent || s.id.None? || out.text != "")))
  {
    OnlyOutput(o, s, m);
    hide Forgets, Answers, FinishKeeps, FinishSilent;
  }

  lemma ToolTakenIn(o: Options, s: Turn, m: Move)
    requires Serial(s) && s.stand.Ready? && TakenIn(s, m) && m.event.out.kind == ToolActivity
    ensures var t := HandleOutput(o, s, m.env, m.event.out); t == BroughtIn(o, s, m).(hadError := t.hadError)
  {
    ToolBrings(o, s, m);
    var u := s.(hadError := s.hadError || m.event.out.poisoned);
    EnsureTakesIn(o, u, m.env, AfterEnsure(true, false, false));
    EnsureTakesIn(o, u, m.env, AfterEnsure(false, false, false));
    EnsureTakesIn(o, StartTicker(o, u), m.env, AfterEnsure(false, false, false));
    hide BroughtIn, RequestEdit, HandleIntermediate, HandleProgress, HandleFinal, Ensure;
  }

  lemma SubagentBrings(o: Options, s: Turn, m: Move)
    requires Serial(s) && s.stand.Ready? && TakenIn(s, m) && m.event.out.kind == ProgressText
    ensures BroughtIn(o, s, m)
            == s.(latest := if s.latest == "" then DEFAULT_HEADING else s.latest,
                  task := CoalescingTask.AfterStart(s.task, o.editable))
  {
    OnlyOutput(o, s, m);
    hide Forgets, Answers, FinishKeeps, FinishSilent;
  }

  lemma SubagentTakenIn(o: Options, s: Turn, m: Move)
    requires Serial(s) && s.stand.Ready? && TakenIn(s, m) && m.event.out.kind == ProgressText
    ensures var t, u := HandleOutput(o, s, m.env, m.event.out), BroughtIn(o, s, m);
            t == (if s.id.Some? then RequestEdit(o, u, m.env) else u).(hadError := t.hadError)
  {
    SubagentBrings(o, s, m);
    var u := s.(hadError := s.hadError || m.event.out.poisoned);
    EnsureTakesIn(o, if s.latest == "" then u.(latest := DEFAULT_HEADING) else u, m.env,
                  AfterEnsure(true, true, m.event.out.error));
    RequestIgnoresError(o, BroughtIn(o, s, m), m.env, s.hadError || m.event.out.poisoned);
    hide BroughtIn, RequestEdit, HandleIntermediate, HandleTool, HandleFinal, Ensure;
  }

  lemma RequestIgnoresError(o: Options, s: Turn, env: Env, error: bool)
    ensures RequestEdit(o, s.(hadError := error), env) == RequestEdit(o, s, env).(hadError := error)
  {
  }

  lemma TakenInTold(o: Options, s: Turn, m: Move, t: Turn)
    requires Serial(s) && s.stand.Ready? && TakenIn(s, m) && !Requests(o, s, m)
    requires t == BroughtIn(o, s, m).(hadError := t.hadError)
    ensures Told(o, s, m, t) && Serial(t)
  {
    OnlyOutput(o, s, m);
    Unworked(o, s, m);
    hide Forgets, Answers, FinishKeeps, FinishSilent, Shows, SendFails, TurnDeliveries.AtDelivery, Cancels,
         InFlight, Issued, Working;
  }

  lemma ActivityTold(o: Options, s: Turn, m: Move)
    requires Serial(s) && s.stand.Ready? && Accepts(s, m.event) && Activity(m.event.out)
    ensures var t := HandleOutput(o, s, m.env, m.event.out); Told(o, s, m, t) && Serial(t)
  {
    var t := HandleOutput(o, s, m.env, m.event.out);
    hide HandleOutput, SetsOut, BroughtIn;
    if s.id.None? && m.env.mayDeliver {
      hide Told, Serial;
      if m.event.out.kind == ToolActivity {
        ToolSetsOut(o, s, m);
      } else {
        SubagentSetsOut(o, s, m);
      }
      SetsOutTold(o, s, m, t);
    } else {
      hide Told, Serial;
      OnlyOutput(o, s, m);
      if m.event.out.kind == ToolActivity {
        ToolTakenIn(o, s, m);
        TakenInTold(o, s, m, t);
      } else {
        SubagentTakenIn(o, s, m);
        if s.id.Some? {
          SubagentTold(o, s, m, t);
        } else {
          TakenInTold(o, s, m, t);
        }
      }
    }
  }

  lemma SubagentTold(o: Options, s: Turn, m: Move, t: Turn)
    requires Serial(s) && s.stand.Ready? && TakenIn(s, m) && m.event.out.kind == ProgressText && s.id.Some?
    requires t == RequestEdit(o, BroughtIn(o, s, m), m.env).(hadError := t.hadError)
    ensures Told(o, s, m, t) && Serial(t)
  {
    OnlyOutput(o, s, m);
    hide RequestEdit, Forgets, Answers, FinishKeeps, FinishSilent, Shows, SendFails,
         TurnDeliveries.AtDelivery, Cancels, Working, InFlight, Issued, Ticking;
    RequestTold(o, s, m, BroughtIn(o, s, m));
  }

  // ---- final outputs

  lemma RawFinalTold(o: Options, s: Turn, m: Move)
    requires Serial(s) && s.stand.Ready? && FinalWithoutText(s, m.event)
    ensures var t := HandleOutput(o, s, m.env, m.event.out); Told(o, s, m, t) && Serial(t)
  {
    OnlyOutput(o, s, m);
    hide RequestEdit, HandleIntermediate, HandleTool, HandleProgress,
         Forgets, Answers, FinishKeeps, FinishSilent, Shows, SendFails,
         TurnDeliveries.AtDelivery, Cancels, Working, InFlight, Issued;
    var u := StopTicker(s);
    RequestTold(o, s, m, u);
    RequestIgnoresError(o, u, m.env, s.hadError || m.event.out.poisoned);
  }

  lemma OtherOutput(o: Options, s: Turn, m: Move)
    requires s.stand.Ready? && m.event.OutputArrives? && !FinalWithoutText(s, m.event)
    requires s.phase == Final || (!Activity(m.event.out) && !Heading(m.event.out))
    ensures var t := HandleOutput(o, s, m.env, m.event.out);
            && t == s.(hadError := t.hadError, stand := t.stand) && !Sending(t.stand)
            && (s.phase == Final || m.event.out.kind != FinalText ==> t.stand.Ready?)
  {
    hide Ensure, RequestEdit, SendProgress;
  }

  lemma OutputTold(o: Options, s: Turn, m: Move)
    requires Serial(s) && s.stand.Ready? && m.event.OutputArrives?
    ensures var t := HandleOutput(o, s, m.env, m.event.out); Told(o, s, m, t) && Serial(t)
  {
    hide HandleOutput, Told, Serial;
    if FinalWithoutText(s, m.event) {
      RawFinalTold(o, s, m);
    } else if s.phase == Final || (!Heading(m.event.out) && !Activity(m.event.out)) {
      OtherOutput(o, s, m);
      NothingTold(o, s, m, HandleOutput(o, s, m.env, m.event.out));
    } else if Heading(m.event.out) {
      HeadingTold(o, s, m);
    } else {
      ActivityTold(o, s, m);
    }
  }

  // ---- finish

  lemma FinishTold(o: Options, s: Turn, m: Move)
    requires Serial(s) && s.stand.Ready? && m.event.FinishCalled?
    ensures var t := Finish(o, s, m.env, m.event.success); Told(o, s, m, t) && Serial(t)
  {
    if s.typing {
      FinishWaits(o, s, m);
    } else {
      FinishedTold(o, s, m, s, m.event.success);
    }
  }

  lemma FinishWaits(o: Options, s: Turn, m: Move)
    requires Serial(s) && s.stand.Ready? && m.event.FinishCalled? && s.typing
    ensures var t := s.(stand := FinishTyping(m.event.success)); Told(o, s, m, t) && Serial(t)
  {
  }

  /** The deciding step of finish, with typing off. */
  lemma FinishedTold(o: Options, s: Turn, m: Move, u: Turn, success: bool)
    requires Serial(s) && Decides(s, m.event) && success == Succeeded(s, m.event) && u == s.(typing := false)
    requires s.stand.Ready? || s.stand.FinishTyping?
    ensures var t := Finished(o, u, m.env, success); Told(o, s, m, t) && Serial(t)
  {
    var t := Finished(o, u, m.env, success);
    DecidingSends(o, s, m, t.stand);
    if FinishKeeps(o, s, m) {
      FinishKeepsTold(o, s, m, u);
    } else {
      FinishOtherTexts(o, s, m, u, success);
      FinishOtherWorks(o, s, m, u, success);
      hide Finished, TextTold, WorkTold, SendsOn;
    }
  }

  lemma DecidingSends(o: Options, s: Turn, m: Move, stand: Stand)
    requires Decides(s, m.event)
    ensures SendsOn(o, s, m, stand)
  {
  }

  lemma FinishKeepsTold(o: Options, s: Turn, m: Move, u: Turn)
    requires Serial(s) && FinishKeeps(o, s, m) && u == s.(typing := false)
    requires s.stand.Ready? || s.stand.FinishTyping?
    ensures var t := Finished(o, u, m.env, true); TextTold(o, s, m, t) && WorkTold(o, s, m, t) && Serial(t)
  {
    hide RequestEdit, Working, InFlight, Issued;
    assert u.(hadError := u.hadError || !true) == u;
    RequestTold(o, s, m, StopTicker(u));
  }

  lemma FinishOtherTexts(o: Options, s: Turn, m: Move, u: Turn, success: bool)
    requires Serial(s) && Decides(s, m.event) && success == Succeeded(s, m.event) && u == s.(typing := false)
    requires !FinishKeeps(o, s, m) && (s.stand.Ready? || s.stand.FinishTyping?)
    ensures var t := Finished(o, u, m.env, success); TextTold(o, s, m, t) && Serial(t)
  {
    hide Finalize;
  }

  lemma FinishOtherWorks(o: Options, s: Turn, m: Move, u: Turn, success: bool)
    requires Serial(s) && Decides(s, m.event) && success == Succeeded(s, m.event) && u == s.(typing := false)
    requires !FinishKeeps(o, s, m) && (s.stand.Ready? || s.stand.FinishTyping?)
    ensures WorkTold(o, s, m, Finished(o, u, m.env, success))
  {
    hide Finalize;
  }

  // ---- the edit task

  lemma TaskSends(o: Options, s: Turn, m: Move)
    requires Serial(s) && Enabled(s, m.event)
    requires m.event.Tick? || m.event.EditDone? || m.event.DrainLoops? || m.event.TaskThrows?
    ensures SendsOn(o, s, m, Step(o, s, m.env, m.event).stand)
  {
    hide Step;
  }

  lemma TickTold(o: Options, s: Turn, m: Move)
    requires Inv(s) && Serial(s) && Enabled(s, m.event) && m.event.Tick?
    ensures var t := RequestEdit(o, s, m.env); TextTold(o, s, m, t) && WorkTold(o, s, m, t) && Serial(t)
  {
    hide RequestEdit, Working, InFlight, Issued;
    RequestTold(o, s, m, s);
  }

  lemma EditDoneTold(o: Options, s: Turn, m: Move)
    requires Inv(s) && Serial(s) && Enabled(s, m.event) && m.event.EditDone?
    ensures var t := EditAnswered(s, m.event.ok); TextTold(o, s, m, t) && WorkTold(o, s, m, t) && Serial(t)
  {
    EditDoneForm(s, m);
    hide EditAnswered, Inv;
  }

  /** An answer about a message that is no longer tracked changes nothing but that the edit is done. */
  lemma EditDoneForm(s: Turn, m: Move)
    requires s.edit.Some? && m.event.EditDone?
    ensures var done := s.(edit := None);
            EditAnswered(s, m.event.ok)
            == if !Answers(s, m.event) then done
               else if m.event.ok then done.(rendered := Some(s.edit.value.shown), fails := 0)
               else done.(rendered := None, fails := s.fails + 1,
                          task := s.task.(ticker := s.task.ticker && s.fails < 2))
  {
  }

  lemma DrainTold(o: Options, s: Turn, m: Move)
    requires Inv(s) && Serial(s) && Enabled(s, m.event) && m.event.DrainLoops?
    ensures var t := Apply(o, s, CoalescingTask.AfterRun(s.task), m.env);
            TextTold(o, s, m, t) && WorkTold(o, s, m, t) && Serial(t)
  {
  }

  lemma ThrowTold(o: Options, s: Turn, m: Move)
    requires Inv(s) && Serial(s) && Enabled(s, m.event) && m.event.TaskThrows?
    ensures var t := OnTaskThrows(s); TextTold(o, s, m, t) && WorkTold(o, s, m, t) && Serial(t)
  {
    ThrowForm(s);
    hide OnTaskThrows;
  }

  /** Only a handler that waits for the edit task is abandoned. */
  lemma ThrowForm(s: Turn)
    requires Serial(s)
    ensures OnTaskThrows(s)
            == s.(task := s.task.(inFlight := false),
                  stand := if s.stand.PublishIdle? || s.stand.Finalizing? then Ready else s.stand)
  {
  }

  lemma TaskTold(o: Options, s: Turn, m: Move)
    requires Inv(s) && Serial(s) && Enabled(s, m.event)
    requires m.event.Tick? || m.event.EditDone? || m.event.DrainLoops? || m.event.TaskThrows?
    ensures var t := Step(o, s, m.env, m.event); Told(o, s, m, t) && Serial(t)
  {
    hide Serial, Inv, TextTold, WorkTold, SendsOn, Enabled, RequestEdit, EditAnswered, Apply, OnTaskThrows;
    TaskSends(o, s, m);
    match m.event
    case Tick => TickTold(o, s, m);
    case EditDone(_) => EditDoneTold(o, s, m);
    case DrainLoops => DrainTold(o, s, m);
    case TaskThrows => ThrowTold(o, s, m);
  }

  // ---- continuations

  lemma ResumeSends(o: Options, s: Turn, m: Move)
    requires Serial(s) && m.event.Resumes? && Resumable(s)
    ensures SendsOn(o, s, m, OnResume(o, s, m.env).stand)
  {
    hide OnResume;
  }

  lemma StartTold(o: Options, s: Turn, m: Move)
    requires Inv(s) && Serial(s) && m.event.Resumes? && s.stand.PublishStart?
    ensures var t := OnResume(o, s, m.env); TextTold(o, s, m, t) && WorkTold(o, s, m, t) && Serial(t)
  {
    StartForm(o, s, m.env);
    hide OnResume;
  }

  /** A publication has nothing to flush. */
  lemma StartForm(o: Options, s: Turn, env: Env)
    requires Serial(s) && s.stand.PublishStart?
    ensures OnResume(o, s, env)
            == s.(task := s.task.(requested := false, ticker := false),
                  stand := if s.stand.p.flush then PublishFlushed(s.stand.p) else PublishIdle(s.stand.p))
  {
    hide SendProgress, TurnHandover.Sent;
  }

  lemma FlushedTold(o: Options, s: Turn, m: Move)
    requires Inv(s) && Serial(s) && m.event.Resumes? && s.stand.PublishFlushed?
    ensures var t := OnResume(o, s, m.env); TextTold(o, s, m, t) && WorkTold(o, s, m, t) && Serial(t)
  {
    hide Publishing, TurnHandover.Sent;
  }

  lemma HandOverTold(o: Options, s: Turn, m: Move)
    requires Inv(s) && Serial(s) && m.event.Resumes? && s.stand.PublishIdle? && Resumable(s)
    ensures var t := OnResume(o, s, m.env); TextTold(o, s, m, t) && WorkTold(o, s, m, t) && Serial(t)
  {
    hide Publishing, TurnHandover.Sent;
  }

  lemma FinalizedTold(o: Options, s: Turn, m: Move)
    requires Inv(s) && Serial(s) && m.event.Resumes? && s.stand.Finalizing? && Resumable(s)
    ensures var t := OnResume(o, s, m.env); TextTold(o, s, m, t) && WorkTold(o, s, m, t) && Serial(t)
  {
    hide Publishing, TurnHandover.Sent;
  }

  lemma ResumeTold(o: Options, s: Turn, m: Move)
    requires Inv(s) && Serial(s) && m.event.Resumes? && Resumable(s)
    ensures var t := OnResume(o, s, m.env); Told(o, s, m, t) && Serial(t)
  {
    ResumeSends(o, s, m);
    NoSecondSend(s);
    hide Inv, Serial, TextTold, WorkTold, SendsOn, OnResume;
    match s.stand
    case PublishStart(_) => StartTold(o, s, m);
    case PublishFlushed(_) => FlushedTold(o, s, m);
    case PublishIdle(_) => HandOverTold(o, s, m);
    case Finalizing(_) => FinalizedTold(o, s, m);
  }

  /** No handler waits for an edit of its progress text. */
  lemma NoSecondSend(s: Turn)
    requires Serial(s)
    ensures !s.stand.SendEdit?
  {
  }

  lemma TypingTold(o: Options, s: Turn, m: Move)
    requires Inv(s) && Serial(s) && m.event.TypingDone? && Enabled(s, m.event)
    ensures var t := OnTyping(o, s, m.env, m.event.ok); Told(o, s, m, t) && Serial(t)
  {
    match s.stand
    case SendTyping(text, replay, a) => SendTypingTold(o, s, m);
    case DeliverTyping(p, replace) => DeliverTypingTold(o, s, m);
    case OutputTyping(error) => OutputTypingTold(o, s, m);
    case FinishTyping(success) =>
      if m.event.ok {
        FinishedTold(o, s, m, s.(typing := false), success);
      } else {
        FinishTypingFails(o, s, m);
      }
  }

  lemma SendTypingTold(o: Options, s: Turn, m: Move)
    requires Serial(s) && m.event.TypingDone? && s.stand.SendTyping?
    ensures var t := OnTyping(o, s, m.env, m.event.ok); Told(o, s, m, t) && Serial(t)
  {
    hide RequestEdit, Finished;
  }

  lemma DeliverTypingTold(o: Options, s: Turn, m: Move)
    requires Inv(s) && Serial(s) && s.stand.DeliverTyping? && m.event.TypingDone? && Enabled(s, m.event)
    ensures var t := OnTyping(o, s, m.env, m.event.ok); Told(o, s, m, t) && Serial(t)
  {
    hide RequestEdit, Finished, SendNow;
  }

  lemma OutputTypingTold(o: Options, s: Turn, m: Move)
    requires Serial(s) && s.stand.OutputTyping? && m.event.TypingDone?
    ensures var t := OnTyping(o, s, m.env, m.event.ok); Told(o, s, m, t) && Serial(t)
  {
    hide RequestEdit, Finished, SendNow;
  }

  lemma FinishTypingFails(o: Options, s: Turn, m: Move)
    requires Serial(s) && s.stand.FinishTyping? && m.event == TypingDone(false)
    ensures var t := OnTyping(o, s, m.env, m.event.ok); Told(o, s, m, t) && Serial(t)
  {
    hide RequestEdit, Finished, SendNow;
  }

  // ---- answers of the channel

  /** The tracked message has been created. */
  function Arrived(o: Options, s: Turn, m: Move): Turn
    requires s.stand.Creating? && m.event.CreateDone? && m.event.id.Some?
  {
    s.(id := m.event.id, used := s.used + {m.event.id.value}, rendered := Some(s.stand.shown), phase := Progress,
       pending := "", creating := false, task := s.task.(ticker := s.task.ticker || o.editable), stand := Ready)
  }

  lemma CreatedForBuffer(o: Options, s: Turn, m: Move)
    requires Serial(s) && s.stand.Creating? && m.event.CreateDone? && m.event.id.Some? && s.stand.after.AfterBuffer?
    ensures var t := TurnHandover.Created(o, s, m.env, m.event.id); t == Arrived(o, s, m).(hadError := t.hadError)
  {
    hide Ensured;
  }

  lemma CreatedForActivity(o: Options, s: Turn, m: Move)
    requires Serial(s) && s.stand.Creating? && m.event.CreateDone? && m.event.id.Some? && s.stand.after.AfterEnsure?
    ensures var t, u := TurnHandover.Created(o, s, m.env, m.event.id), Arrived(o, s, m);
            t == (if s.stand.after.progress then RequestEdit(o, u, m.env) else u).(hadError := t.hadError)
  {
    var u := Arrived(o, s, m).(stand := s.stand);
    RequestIgnoresStand(o, u, m.env, Ready);
    hide RequestEdit;
    assert Ensured(o, u, m.env, s.stand.after) == TurnHandover.Created(o, s, m.env, m.event.id);
  }

  lemma RequestIgnoresStand(o: Options, s: Turn, env: Env, stand: Stand)
    ensures RequestEdit(o, s.(stand := stand), env) == RequestEdit(o, s, env).(stand := stand)
  {
  }

  lemma ArrivedTold(o: Options, s: Turn, m: Move, t: Turn)
    requires Serial(s) && s.stand.Creating? && m.event.CreateDone? && m.event.id.Some?
    requires t == (if Requests(o, s, m) then RequestEdit(o, Arrived(o, s, m), m.env) else Arrived(o, s, m))
                  .(hadError := t.hadError)
    ensures Told(o, s, m, t) && Serial(t)
  {
    var u := Arrived(o, s, m);
    if Requests(o, s, m) {
      RequestTold(o, s, m, u);
    } else {
      assert WorkTold(o, s, m, u);
    }
    hide RequestEdit, Working, InFlight, Issued;
  }

  lemma CreateTold(o: Options, s: Turn, m: Move)
    requires Inv(s) && Serial(s) && Enabled(s, m.event) && m.event.CreateDone?
    ensures var t := TurnHandover.Created(o, s, m.env, m.event.id); Told(o, s, m, t) && Serial(t)
  {
    var t := TurnHandover.Created(o, s, m.env, m.event.id);
    if m.event.id.None? {
      hide RequestEdit;
    } else {
      hide TurnHandover.Created, Told;
      if s.stand.after.AfterBuffer? {
        CreatedForBuffer(o, s, m);
      } else {
        CreatedForActivity(o, s, m);
      }
      ArrivedTold(o, s, m, t);
    }
  }

  lemma PlainTold(o: Options, s: Turn, m: Move)
    requires Inv(s) && Serial(s) && Enabled(s, m.event) && m.event.PlainDone?
    ensures var t := OnPlain(o, s, m.env, m.event.ok); Told(o, s, m, t) && Serial(t)
  {
    hide Inv, OnPlain;
    PlainForm(o, s, m);
  }

  /** After a plain message no message is tracked. */
  lemma PlainForm(o: Options, s: Turn, m: Move)
    requires Serial(s) && s.stand.SendPlain? && m.event.PlainDone?
    ensures var t, u := OnPlain(o, s, m.env, m.event.ok), s.(stand := Ready, pending := "", creating := false);
            if !m.event.ok then t == u
            else
              t == u.(phase := Progress, hadError := t.hadError,
                      task := s.task.(ticker := s.task.ticker || (s.stand.after.AfterEnsure? && o.editable)))
  {
    hide RequestEdit;
  }

  lemma DeliveredTold(o: Options, s: Turn, m: Move)
    requires Inv(s) && Serial(s) && Enabled(s, m.event) && m.event.DeliverDone?
    ensures var t := OnDelivered(s, m.event.ok); Told(o, s, m, t) && Serial(t)
  {
  }

  // ---- every step

  /** Every step of a turn keeps to all the rules. */
  lemma StepTold(o: Options, s: Turn, m: Move)
    requires Inv(s) && Serial(s) && Enabled(s, m.event)
    ensures var t := Step(o, s, m.env, m.event); Told(o, s, m, t) && Serial(t)
  {
    hide Inv, Serial, Told, HandleOutput, Finish, RequestEdit, EditAnswered, Apply, OnTaskThrows, OnResume, OnTyping,
         TurnHandover.Created, OnPlain, OnDelivered;
    match m.event
    case OutputArrives(_) => OutputTold(o, s, m);
    case FinishCalled(_) => FinishTold(o, s, m);
    case Tick => TaskTold(o, s, m);
    case EditDone(_) => TaskTold(o, s, m);
    case DrainLoops => TaskTold(o, s, m);
    case TaskThrows => TaskTold(o, s, m);
    case Resumes => ResumeTold(o, s, m);
    case TypingDone(_) => TypingTold(o, s, m);
    case CreateDone(_) => CreateTold(o, s, m);
    case PlainDone(_) => PlainTold(o, s, m);
    case DeliverDone(_) => DeliveredTold(o, s, m);
  }

  lemma BeginSerial(typing: bool)
    ensures Serial(Begin(typing))
  {
  }

  lemma {:induction false} RunSerial(o: Options, s: Turn, ms: seq<Move>)
    requires Inv(s) && Serial(s) && Runs(o, s, ms)
    ensures Inv(Exec(o, s, ms)) && Serial(Exec(o, s, ms))
    decreases |ms|
  {
    hide Inv, Serial, Told, Step, Enabled;
    if ms != [] {
      StepTold(o, s, ms[0]);
      StepInv(o, s, ms[0].env, ms[0].event);
      RunSerial(o, Step(o, s, ms[0].env, ms[0].event), ms[1..]);
    }
  }

  /** At any point of any turn the next step keeps to all the rules. */
  lemma TurnTold(o: Options, typing: bool, ms: seq<Move>, m: Move)
    requires Runs(o, Begin(typing), ms) && Enabled(Exec(o, Begin(typing), ms), m.event)
    ensures var s := Exec(o, Begin(typing), ms); Told(o, s, m, Step(o, s, m.env, m.event))
  {
    hide *;
    BeginInv(typing);
    BeginSerial(typing);
    RunSerial(o, Begin(typing), ms);
    StepTold(o, Exec(o, Begin(typing), ms), m);
  }

  /** At any point of any turn: while no handler runs no progress text is held back and no message is marked as
      being created; no message is sent while another one is tracked, and none before a final text. */
  lemma NothingHeldBack(o: Options, typing: bool, ms: seq<Move>)
    requires Runs(o, Begin(typing), ms)
    ensures var s := Exec(o, Begin(typing), ms);
            && (s.stand.Ready? ==> s.pending == "" && !s.creating)
            && (Sending(s.stand) ==> s.id.None? && TurnDeliveries.Pending(s.stand).None?)
            && (s.stand.PublishStart? ==> s.pending == "")
  {
    hide Runs, Exec, Inv;
    BeginInv(typing);
    BeginSerial(typing);
    RunSerial(o, Begin(typing), ms);
  }

  // ---- what a turn has shown

  /** Some event of the moves has put a progress message in the channel. */
  ghost predicate Shown(ms: seq<Move>) {
    exists k :: 0 <= k < |ms| && Shows(ms[k].event)
  }

  lemma ShownFirst(ms: seq<Move>)
    requires ms != []
    ensures Shown(ms) <==> Shows(ms[0].event) || Shown(ms[1..])
  {
    if Shown(ms) && !Shows(ms[0].event) {
      var k :| 0 <= k < |ms| && Shows(ms[k].event);
      assert ms[1..][k - 1] == ms[k];
    }
    if Shown(ms[1..]) {
      var k :| 0 <= k < |ms[1..]| && Shows(ms[1..][k].event);
      assert ms[k + 1] == ms[1..][k];
    }
  }

  lemma {:induction false} RunPhases(o: Options, s: Turn, ms: seq<Move>)
    requires Inv(s) && Serial(s) && Runs(o, s, ms)
    ensures var t := Exec(o, s, ms); t.phase != Final ==> (t.phase == Progress <==> s.phase == Progress || Shown(ms))
    ensures s.phase == Final ==> Exec(o, s, ms).phase == Final
    decreases |ms|
  {
    hide Inv, Serial, Told, Step, Enabled, Shown, TurnDeliveries.AtDelivery;
    if ms == [] {
      NoneShown(ms);
    } else {
      var t := Step(o, s, ms[0].env, ms[0].event);
      StepTold(o, s, ms[0]);
      ToldPhase(o, s, ms[0], t);
      StepInv(o, s, ms[0].env, ms[0].event);
      if s.phase == Final {
        StepFrozen(o, s, ms[0].env, ms[0].event);
      }
      ShownFirst(ms);
      RunPhases(o, t, ms[1..]);
    }
  }

  lemma NoneShown(ms: seq<Move>)
    requires ms == []
    ensures !Shown(ms)
  {
  }

  lemma ToldPhase(o: Options, s: Turn, m: Move, t: Turn)
    requires Told(o, s, m, t)
    ensures t.phase == Phased(s, m)
  {
  }

  /** Short of a final text, a turn is in its progress phase exactly when a message has been created or sent. */
  lemma ProgressWhenShown(o: Options, typing: bool, ms: seq<Move>)
    requires Runs(o, Begin(typing), ms)
    ensures var s := Exec(o, Begin(typing), ms); s.phase != Final ==> (s.phase == Progress <==> Shown(ms))
  {
    hide Runs, Exec, Inv, Serial, Shown;
    BeginInv(typing);
    BeginSerial(typing);
    RunPhases(o, Begin(typing), ms);
  }

  // ---- a final text replaces the message that was tracked when it arrived

  lemma {:induction false} CreatesNothing(
    o: Options, s: Turn, ms: seq<Move>, a: TurnDeliveries.Announcement)
    requires Inv(s) && Serial(s) && TurnDeliveries.Matches(s, TurnDeliveries.Due(a))
    requires Runs(o, s, ms) && TurnDeliveries.Undisturbed(o, s, ms)
    ensures Exec(o, s, ms).used == s.used
    decreases |ms|
  {
    hide Inv, Serial, Told, Step, Enabled, TurnDeliveries.Matches, TurnDeliveries.Abandons, TurnDeliveries.AtDelivery;
    if ms != [] {
      var m := ms[0];
      var t := Step(o, s, m.env, m.event);
      StepTold(o, s, m);
      StepCreatesNothing(o, s, m, t, a);
      StepInv(o, s, m.env, m.event);
      TurnDeliveries.StepMatches(o, s, m, TurnDeliveries.Due(a));
      if TurnDeliveries.AtDelivery(s, m.event) {
        DeliveryIsFinal(o, s, m, t);
        FinalIsFinal(o, t, ms[1..]);
      } else {
        CreatesNothing(o, t, ms[1..], a);
      }
    }
  }

  lemma StepCreatesNothing(o: Options, s: Turn, m: Move, t: Turn, a: TurnDeliveries.Announcement)
    requires Serial(s) && TurnDeliveries.Matches(s, TurnDeliveries.Due(a)) && Enabled(s, m.event)
    requires Told(o, s, m, t)
    ensures t.used == s.used
  {
    assert !m.event.CreateDone?;
    hide SendsOn, WorkTold, Serial, TurnDeliveries.Matches, Enabled;
  }

  lemma DeliveryIsFinal(o: Options, s: Turn, m: Move, t: Turn)
    requires TurnDeliveries.AtDelivery(s, m.event) && Told(o, s, m, t)
    ensures t.phase == Final
  {
    hide SendsOn, WorkTold;
  }

  /** A final output with a visible text, whose handler is not abandoned while the run may deliver, is delivered in
      place of the very message that was tracked when it arrived, or as a new one if it has attachments. */
  lemma FinalTextReplacesTracked(o: Options, typing: bool, before: seq<Move>, env: Env, out: Output, ms: seq<Move>)
    requires Runs(o, Begin(typing), before) && out.kind == FinalText && out.text != ""
    requires var s := Exec(o, Begin(typing), before);
             && s.stand.Ready? && s.phase != Final
             && var t := Step(o, s, env, OutputArrives(out));
                && Runs(o, t, ms) && TurnDeliveries.Undisturbed(o, t, ms) && Exec(o, t, ms).stand.Ready?
                && forall m :: m in ms ==> m.env.mayDeliver
    ensures var s := Exec(o, Begin(typing), before);
            Exec(o, Step(o, s, env, OutputArrives(out)), ms).deliveries
            == [Delivery(out.text, if out.attached then None else s.id)]
  {
    var s := Exec(o, Begin(typing), before);
    var m := Move(OutputArrives(out), env);
    var t := Step(o, s, env, m.event);
    TurnDeliveries.FinalTextIsDelivered(o, typing, before, env, out, ms);
    TurnDeliveries.FreshMatches(o, typing, before);
    hide Runs, Exec, Step, Inv, Serial, Told, TurnDeliveries.Undisturbed, TurnDeliveries.Matches,
         TurnDeliveries.Pending, TurnDeliveries.PendingAfter;
    BeginInv(typing);
    BeginSerial(typing);
    RunSerial(o, Begin(typing), before);
    StepTold(o, s, m);
    OutputCreatesNothing(o, s, m, t);
    StepInv(o, s, env, m.event);
    TurnDeliveries.StepMatches(o, s, m, TurnDeliveries.Nothing);
    CreatesNothing(o, t, ms, TurnDeliveries.Announcement(out.text, out.attached));
  }

  lemma OutputCreatesNothing(o: Options, s: Turn, m: Move, t: Turn)
    requires Told(o, s, m, t) && m.event.OutputArrives?
    ensures t.used == s.used
  {
    hide SendsOn, WorkTold;
  }
}
