/** How one turn hands its progress message over to the final answer, while a ticker-driven task edits
    that message: a machine over the stretches of code between two awaits. The handlers run one at a
    time; the edit task runs beside them. */
module TurnHandover {
  import opened Basics
  import opened CoalescingTask

  type Id = nat

  datatype Phase = Silent | Progress | Final

  /** A null text is empty. */
  datatype Options = Options(
    editable: bool, trackable: bool, paired: bool, reviewing: bool,
    allowReplay: bool, failWhenSilent: bool, failureText: string)

  /** What the surroundings answer at a step: whether the run may still deliver, how a progress text
      would be rendered now, and whether a human message closed the run. */
  datatype Env = Env(mayDeliver: bool, shown: string, humanClose: bool)

  // ---- where the running handler stands

  /** What follows the publication of a final text. */
  datatype Origin = FromOutput(error: bool) | FromFinish

  datatype Publication = Publication(text: string, attached: bool, flush: bool, origin: Origin)

  /** What follows the sending of a progress text. */
  datatype After =
    | AfterBuffer(text: string, error: bool)
    | AfterEnsure(subagent: bool, progress: bool, error: bool)
    | AfterFlush(p: Publication)

  datatype Stand =
    | Ready
    | SendTyping(text: string, replay: bool, after: After)
    | SendEdit(after: After)
    | SendPlain(after: After)
    | Creating(shown: string, after: After)
    | PublishStart(p: Publication)
    | PublishFlushed(p: Publication)
    | PublishIdle(p: Publication)
    | DeliverTyping(p: Publication, replace: Option<Id>)
    | Delivering(origin: Origin)
    | Finalizing(origin: Origin)
    | OutputTyping(error: bool)
    | FinishTyping(success: bool)

  // ---- state

  datatype Edit = Edit(id: Id, shown: string)

  /** A final delivery: its text, and the message it replaces. */
  datatype Delivery = Delivery(text: string, replace: Option<Id>)

  /** edit is the edit in flight. used, handed, edits and deliveries are history: the ids of all progress
      messages, those given up for a final text, the ids edited, and the final deliveries. */
  datatype Turn = Turn(
    task: Task, edit: Option<Edit>,
    id: Option<Id>, latest: string, rendered: Option<string>, pending: string, forFinal: string,
    fails: nat, creating: bool, phase: Phase, hadError: bool, typing: bool, stand: Stand,
    used: set<Id>, handed: set<Id>, edits: seq<Id>, deliveries: seq<Delivery>)

  /** A new turn; its start has switched the typing indicator on, or failed to. */
  function Begin(typing: bool): Turn {
    Turn(IDLE, None, None, "", None, "", "", 0, false, Silent, false, typing, Ready, {}, {}, [], [])
  }

  const DEFAULT_HEADING := "\U{C791}\U{C5C5} \U{C911}..."

  // ---- the edit task

  /** The task up to its await: issues an edit, or returns at once. */
  function Sync(o: Options, s: Turn, env: Env): Turn {
    if !env.mayDeliver || s.id.None? || !o.editable || s.latest == "" || Some(env.shown) == s.rendered then s
    else s.(edit := Some(Edit(s.id.value, env.shown)), edits := s.edits + [s.id.value])
  }

  function Apply(o: Options, s: Turn, r: Outcome, env: Env): Turn {
    if r.runs then Sync(o, s.(task := r.task), env) else s.(task := r.task)
  }

  function RequestEdit(o: Options, s: Turn, env: Env): Turn {
    Apply(o, s, AfterRequest(s.task), env)
  }

  function StartTicker(o: Options, s: Turn): Turn {
    s.(task := AfterStart(s.task, o.editable))
  }

  function StopTicker(s: Turn): Turn {
    s.(task := AfterStop(s.task))
  }

  /** The edit in flight is answered. */
  function EditAnswered(s: Turn, ok: bool): Turn
    requires s.edit.Some?
  {
    var e := s.edit.value;
    var done := s.(edit := None);
    if s.id != Some(e.id) then done
    else if ok then done.(rendered := Some(e.shown), fails := 0)
    else
      var failed := done.(rendered := None, fails := s.fails + 1);
      if failed.fails >= 3 then StopTicker(failed) else failed
  }

  function ResetProgress(s: Turn): Turn {
    s.(task := AfterCancel(AfterStop(s.task)), id := None, latest := "", rendered := None, pending := "",
       fails := 0, creating := false)
  }

  // ---- ends of handlers

  function EndOutput(s: Turn, error: bool): Turn {
    if s.typing then s.(stand := OutputTyping(error))
    else s.(stand := Ready, hadError := s.hadError || error)
  }

  function EndFinish(s: Turn): Turn {
    StopTicker(s).(stand := Ready)
  }

  function AfterPublish(s: Turn, origin: Origin): Turn {
    match origin
    case FromOutput(error) => EndOutput(s, error)
    case FromFinish => EndFinish(s)
  }

  // ---- sending progress

  /** After the progress message is ensured: subagent activity keeps the ticker going, and subagent
      progress asks for an edit. */
  function Ensured(o: Options, s: Turn, env: Env, a: After): Turn
    requires a.AfterEnsure?
  {
    var ticking := if a.subagent then StartTicker(o, s) else s;
    var edited := if a.progress && ticking.id.Some? then RequestEdit(o, ticking, env) else ticking;
    edited.(stand := Ready, hadError := edited.hadError || a.error)
  }

  function Sent(o: Options, s: Turn, env: Env, a: After): Turn {
    match a
    case AfterBuffer(text, error) =>
      s.(stand := Ready, pending := if s.pending == text then "" else s.pending,
         hadError := s.hadError || error)
    case AfterEnsure(_, _, _) =>
      Ensured(o, StartTicker(o, s).(creating := false, pending := ""), env, a)
    case AfterFlush(p) => s.(pending := "", stand := PublishFlushed(p))
  }

  /** The sending threw; the handler is abandoned. */
  function SendFailed(s: Turn, a: After): Turn {
    match a
    case AfterBuffer(text, _) => s.(stand := Ready, pending := if s.pending == text then "" else s.pending)
    case AfterEnsure(_, _, _) => s.(stand := Ready, creating := false)
    case AfterFlush(_) => s.(stand := Ready)
  }

  function SendProgress(o: Options, s: Turn, env: Env, text: string, replay: bool, a: After): Turn {
    if !env.mayDeliver then Sent(o, s.(pending := ""), env, a)
    else if text == "" || (text == s.latest && s.id.Some?) then Sent(o, s, env, a)
    else if !s.typing then s.(stand := SendTyping(text, replay, a))
    else SendNow(o, s, env, text, replay, a)
  }

  function Titled(s: Turn, text: string, replay: bool): Turn {
    s.(latest := text, forFinal := if replay then text else s.forFinal)
  }

  function SendNow(o: Options, s: Turn, env: Env, text: string, replay: bool, a: After): Turn {
    var s := Titled(s, text, replay);
    if s.id.Some? && o.editable then RequestEdit(o, s, env).(stand := SendEdit(a))
    else if !o.trackable then s.(rendered := Some(env.shown), stand := SendPlain(a))
    else s.(stand := Creating(env.shown, a))
  }

  /** The tracked message exists, or only an untracked one can be sent. */
  function Created(o: Options, s: Turn, env: Env, id: Option<Id>): Turn
    requires s.stand.Creating?
  {
    var shown := s.(rendered := Some(s.stand.shown));
    match id
    case None => shown.(stand := SendPlain(s.stand.after))
    case Some(i) => Sent(o, Tracked(o, shown, i), env, s.stand.after)
  }

  function Tracked(o: Options, s: Turn, i: Id): Turn {
    StartTicker(o, s.(id := Some(i), used := s.used + {i})).(phase := Progress)
  }

  function Ensure(o: Options, s: Turn, env: Env, a: After): Turn
    requires a.AfterEnsure?
  {
    if s.id.Some? || s.creating then Ensured(o, s, env, a)
    else
      var heading := if s.pending != "" then s.pending
                     else if s.latest != "" then s.latest
                     else DEFAULT_HEADING;
      SendProgress(o, s.(creating := true, latest := if s.latest == "" then heading else s.latest), env,
                   heading, false, a)
  }

  function Buffer(o: Options, s: Turn, env: Env, text: string, error: bool): Turn {
    SendProgress(o, s.(pending := text), env, text, true, AfterBuffer(text, error))
  }

  /** A visible progress message gets a new heading. */
  function NewHeading(o: Options, s: Turn, env: Env, text: string): Turn {
    RequestEdit(o, s.(latest := text, forFinal := text), env)
  }

  // ---- publishing

  function Flush(o: Options, s: Turn, env: Env, p: Publication): Turn {
    if env.mayDeliver && !o.reviewing && s.pending != "" && s.pending != p.text then
      SendProgress(o, s, env, s.pending, true, AfterFlush(p))
    else s.(pending := "", stand := PublishFlushed(p))
  }

  function Publishing(o: Options, s: Turn, env: Env, p: Publication): Turn {
    var quiet := s.(task := AfterCancel(AfterStop(s.task)));
    if p.flush then Flush(o, quiet, env, p) else quiet.(stand := PublishIdle(p))
  }

  /** The hand-over: the progress message is given up, to be replaced unless there are attachments. */
  function HandOver(s: Turn, p: Publication): Turn {
    var replace := if p.attached then None else s.id;
    ResetProgress(s).(stand := DeliverTyping(p, replace),
                      handed := s.handed + (if s.id.Some? then {s.id.value} else {}))
  }

  function Deliver(s: Turn, env: Env, p: Publication, replace: Option<Id>): Turn {
    var final := s.(phase := Final);
    if env.mayDeliver then
      final.(deliveries := s.deliveries + [Delivery(p.text, replace)], stand := Delivering(p.origin))
    else AfterPublish(final.(forFinal := ""), p.origin)
  }

  function Finalize(o: Options, s: Turn, env: Env, origin: Origin): Turn {
    RequestEdit(o, StopTicker(s), env).(stand := Finalizing(origin))
  }

  // ---- handlers

  datatype Kind = Intermediate | ToolActivity | ProgressText | FinalText

  /** An agent output: its visible text, whether it had any before formatting, whether it comes from a
      subagent, has attachments, reports an error, or poisons the session. */
  datatype Output = Output(
    kind: Kind, text: string, raw: bool, subagent: bool, attached: bool, error: bool, poisoned: bool)

  function HandleOutput(o: Options, s: Turn, env: Env, out: Output): Turn {
    if s.phase == Final then s
    else
      var s := s.(hadError := s.hadError || out.poisoned);
      match out.kind
      case Intermediate => HandleIntermediate(o, s, env, out)
      case ToolActivity => HandleTool(o, s, env, out)
      case ProgressText => HandleProgress(o, s, env, out)
      case FinalText => HandleFinal(o, s, env, out)
  }

  function HandleIntermediate(o: Options, s: Turn, env: Env, out: Output): Turn {
    if out.text == "" then s
    else if s.id.Some? then NewHeading(o, s.(pending := ""), env, out.text)
    else Buffer(o, s, env, out.text, false)
  }

  function HandleTool(o: Options, s: Turn, env: Env, out: Output): Turn {
    if out.subagent then Ensure(o, s, env, AfterEnsure(true, false, false))
    else Ensure(o, if out.text != "" then StartTicker(o, s) else s, env, AfterEnsure(false, false, false))
  }

  function HandleProgress(o: Options, s: Turn, env: Env, out: Output): Turn {
    if out.subagent then
      Ensure(o, if s.latest == "" then s.(latest := DEFAULT_HEADING) else s, env,
             AfterEnsure(true, true, out.error))
    else if out.text == "" then s.(hadError := s.hadError || out.error)
    else if s.id.Some? then
      var t := NewHeading(o, s, env, out.text);
      t.(hadError := t.hadError || out.error)
    else Buffer(o, s, env, out.text, out.error)
  }

  function HandleFinal(o: Options, s: Turn, env: Env, out: Output): Turn {
    if out.text != "" then
      s.(stand := PublishStart(Publication(out.text, out.attached, true, FromOutput(out.error))))
    else if out.raw then Finalize(o, s, env, FromOutput(out.error))
    else EndOutput(s, out.error)
  }

  function Finish(o: Options, s: Turn, env: Env, success: bool): Turn {
    if s.typing then s.(stand := FinishTyping(success)) else Finished(o, s, env, success)
  }

  function Finished(o: Options, s: Turn, env: Env, success: bool): Turn {
    var s := s.(hadError := s.hadError || !success);
    if success && s.phase == Progress && !s.hadError && s.forFinal != "" then
      if env.humanClose then EndFinish(ResetProgress(s))
      else if !o.paired && o.allowReplay then
        s.(stand := PublishStart(Publication(s.forFinal, false, false, FromFinish)))
      else Finalize(o, s, env, FromFinish)
    else if s.phase != Final && s.hadError && (s.phase == Progress || o.failWhenSilent) then
      s.(stand := PublishStart(Publication(o.failureText, false, false, FromFinish)))
    else EndFinish(s)
  }

  // ---- steps

  datatype Event =
    | OutputArrives(out: Output)
    | FinishCalled(success: bool)
    | Tick
    | EditDone(ok: bool)
    | DrainLoops
    | TaskThrows
    | Resumes
    | TypingDone(ok: bool)
    | CreateDone(id: Option<Id>)
    | PlainDone(ok: bool)
    | DeliverDone(ok: bool)

  predicate Looping(s: Turn) {
    s.task.inFlight && s.edit.None?
  }

  /** The running handler waits for nothing but its turn. */
  predicate Resumable(s: Turn) {
    || s.stand.PublishStart? || s.stand.PublishFlushed?
    || ((s.stand.SendEdit? || s.stand.PublishIdle? || s.stand.Finalizing?) && !s.task.inFlight)
  }

  /** The ticker is a timer: it fires only when no continuation is ready to run. */
  predicate Enabled(s: Turn, e: Event) {
    match e
    case OutputArrives(_) => s.stand.Ready?
    case FinishCalled(_) => s.stand.Ready?
    case Tick => s.task.ticker && !Looping(s) && !Resumable(s)
    case EditDone(_) => s.task.inFlight && s.edit.Some?
    case DrainLoops => Looping(s)
    case TaskThrows => Looping(s)
    case Resumes => Resumable(s)
    case TypingDone(ok) =>
      || s.stand.SendTyping? || s.stand.OutputTyping? || s.stand.FinishTyping?
      || (s.stand.DeliverTyping? && (ok || !s.typing))
    case CreateDone(id) => s.stand.Creating? && (id.Some? ==> id.value !in s.used)
    case PlainDone(_) => s.stand.SendPlain?
    case DeliverDone(_) => s.stand.Delivering?
  }

  function OnResume(o: Options, s: Turn, env: Env): Turn
    requires Resumable(s)
  {
    match s.stand
    case PublishStart(p) => Publishing(o, s, env, p)
    case PublishFlushed(p) => s.(task := AfterCancel(s.task), stand := PublishIdle(p))
    case PublishIdle(p) => HandOver(s, p)
    case SendEdit(a) => Sent(o, s.(phase := Progress), env, a)
    case Finalizing(origin) => AfterPublish(ResetProgress(s).(forFinal := ""), origin)
  }

  /** A run of the edit task throws before it issues an edit: the drain is over, and a handler that waits for
      it is abandoned. */
  function OnTaskThrows(s: Turn): Turn {
    var t := s.(task := AfterThrow(s.task));
    match s.stand
    case SendEdit(a) => SendFailed(t, a)
    case PublishIdle(_) => t.(stand := Ready)
    case Finalizing(_) => t.(stand := Ready)
    case _ => t
  }

  function OnTyping(o: Options, s: Turn, env: Env, ok: bool): Turn
    requires Enabled(s, TypingDone(ok))
  {
    match s.stand
    case SendTyping(text, replay, a) =>
      if ok then SendNow(o, s.(typing := true), env, text, replay, a) else SendFailed(s, a)
    case DeliverTyping(p, replace) =>
      if ok then Deliver(s.(typing := true), env, p, replace) else s.(stand := Ready)
    case OutputTyping(error) =>
      if ok then s.(typing := false, stand := Ready, hadError := s.hadError || error)
      else s.(stand := Ready)
    case FinishTyping(success) =>
      if ok then Finished(o, s.(typing := false), env, success) else s.(stand := Ready)
  }

  function OnPlain(o: Options, s: Turn, env: Env, ok: bool): Turn
    requires s.stand.SendPlain?
  {
    if ok then Sent(o, s.(phase := Progress), env, s.stand.after) else SendFailed(s, s.stand.after)
  }

  function OnDelivered(s: Turn, ok: bool): Turn
    requires s.stand.Delivering?
  {
    if ok then AfterPublish(s.(forFinal := ""), s.stand.origin) else s.(stand := Ready)
  }

  function Step(o: Options, s: Turn, env: Env, e: Event): Turn
    requires Enabled(s, e)
  {
    match e
    case OutputArrives(out) => HandleOutput(o, s, env, out)
    case FinishCalled(success) => Finish(o, s, env, success)
    case Tick => RequestEdit(o, s, env)
    case EditDone(ok) => EditAnswered(s, ok)
    case DrainLoops => Apply(o, s, AfterRun(s.task), env)
    case TaskThrows => OnTaskThrows(s)
    case Resumes => OnResume(o, s, env)
    case TypingDone(ok) => OnTyping(o, s, env, ok)
    case CreateDone(id) => Created(o, s, env, id)
    case PlainDone(ok) => OnPlain(o, s, env, ok)
    case DeliverDone(ok) => OnDelivered(s, ok)
  }

  datatype Move = Move(event: Event, env: Env)

  predicate Runs(o: Options, s: Turn, ms: seq<Move>)
    decreases |ms|
  {
    ms == [] || (Enabled(s, ms[0].event) && Runs(o, Step(o, s, ms[0].env, ms[0].event), ms[1..]))
  }

  function Exec(o: Options, s: Turn, ms: seq<Move>): Turn
    requires Runs(o, s, ms)
    decreases |ms|
  {
    if ms == [] then s else Exec(o, Step(o, s, ms[0].env, ms[0].event), ms[1..])
  }
}
