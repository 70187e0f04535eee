/** What a turn delivers: which handlers announce a final text, and that exactly the announced text is
    delivered once the handler has run, unless it was abandoned or the run may no longer deliver. */
module TurnDeliveries {
  import opened Basics
  import CoalescingTask
  import opened TurnHandover
  import opened TurnSafety

  // ---- announcements

  datatype Announcement = Announcement(text: string, attached: bool)

  /** When finish, in its deciding step, has something to deliver: the last progress text of a successful turn
      that may be replayed, or the failure text of a turn that has failed. */
  function AtFinish(o: Options, s: Turn, env: Env, success: bool): Option<Announcement> {
    var failed := s.hadError || !success;
    if s.phase == Progress && !failed && s.forFinal != "" then
      if !env.humanClose && !o.paired && o.allowReplay then Some(Announcement(s.forFinal, false)) else None
    else if s.phase != Final && failed && (s.phase == Progress || o.failWhenSilent) then
      Some(Announcement(o.failureText, false))
    else None
  }

  /** The text that a step announces: that of a final output that comes before the final phase, or of finish. */
  function Announced(o: Options, s: Turn, env: Env, e: Event): Option<Announcement> {
    match e
    case OutputArrives(out) =>
      if out.kind == FinalText && out.text != "" && s.phase != Final then Some(Announcement(out.text, out.attached))
      else None
    case FinishCalled(success) => if s.typing then None else AtFinish(o, s, env, success)
    case TypingDone(ok) =>
      if ok && s.stand.FinishTyping? then AtFinish(o, s, env, s.stand.success) else None
    case _ => None
  }

  /** The event makes the running handler throw before it has delivered anything. */
  predicate Abandons(s: Turn, e: Event) {
    match e
    case TypingDone(ok) => !ok && (s.stand.SendTyping? || s.stand.DeliverTyping?)
    case PlainDone(ok) => !ok
    case TaskThrows => s.stand.SendEdit? || s.stand.PublishIdle? || s.stand.Finalizing?
    case _ => false
  }

  /** The typing indicator is on for the delivery, which is now made if the run may still deliver. */
  predicate AtDelivery(s: Turn, e: Event) {
    s.stand.DeliverTyping? && e == TypingDone(true)
  }

  // ---- how far a turn has come with what was announced

  datatype Outcome = Nothing | Due(due: Announcement) | Sent(sent: Announcement) | Denied

  function Next(o: Options, s: Turn, m: Move, q: Outcome): Outcome {
    match q
    case Nothing =>
      (match Announced(o, s, m.env, m.event)
       case Some(a) => Due(a)
       case None => Nothing)
    case Due(a) =>
      if Abandons(s, m.event) then Nothing
      else if AtDelivery(s, m.event) then (if m.env.mayDeliver then Sent(a) else Denied)
      else q
    case _ => q
  }

  function OutcomeOf(o: Options, s: Turn, ms: seq<Move>, q: Outcome): Outcome
    requires Runs(o, s, ms)
    decreases |ms|
  {
    if ms == [] then q else OutcomeOf(o, Step(o, s, ms[0].env, ms[0].event), ms[1..], Next(o, s, ms[0], q))
  }

  /** What the running handler is about to publish. */
  function Pending(stand: Stand): Option<Publication> {
    match stand
    case PublishStart(p) => Some(p)
    case PublishFlushed(p) => Some(p)
    case PublishIdle(p) => Some(p)
    case DeliverTyping(p, _) => Some(p)
    case SendTyping(_, _, a) => PendingAfter(a)
    case SendEdit(a) => PendingAfter(a)
    case SendPlain(a) => PendingAfter(a)
    case Creating(_, a) => PendingAfter(a)
    case _ => None
  }

  function PendingAfter(a: After): Option<Publication> {
    if a.AfterFlush? then Some(a.p) else None
  }

  predicate Publishes(stand: Stand, a: Announcement) {
    && Pending(stand).Some? && Pending(stand).value.text == a.text && Pending(stand).value.attached == a.attached
    && (stand.DeliverTyping? && a.attached ==> stand.replace.None?)
  }

  predicate Matches(s: Turn, q: Outcome) {
    match q
    case Nothing => s.phase != Final && s.deliveries == [] && Pending(s.stand).None?
    case Due(a) => s.phase != Final && s.deliveries == [] && Publishes(s.stand, a)
    case Sent(a) =>
      && s.phase == Final && |s.deliveries| == 1 && s.deliveries[0].text == a.text
      && (a.attached ==> s.deliveries[0].replace.None?)
    case Denied => s.phase == Final && s.deliveries == []
  }

  // ---- parts of a step

  /** A part of a step that leaves the phase short of final, delivers nothing, and publishes p if anything. */
  predicate Heads(s: Turn, p: Option<Publication>) {
    s.phase != Final && s.deliveries == [] && Pending(s.stand) == p && !s.stand.DeliverTyping?
  }

  predicate Open(s: Turn) {
    s.phase != Final && s.deliveries == []
  }

  lemma RequestOpen(o: Options, s: Turn, env: Env)
    ensures var t := RequestEdit(o, s, env);
            t.phase == s.phase && t.deliveries == s.deliveries && t.stand == s.stand
  {
  }

  lemma EnsuredHeads(o: Options, s: Turn, env: Env, a: After)
    requires Open(s) && a.AfterEnsure?
    ensures Heads(Ensured(o, s, env, a), None)
  {
    hide RequestEdit;
    RequestOpen(o, if a.subagent then StartTicker(o, s) else s, env);
  }

  lemma SentHeads(o: Options, s: Turn, env: Env, a: After)
    requires Open(s)
    ensures Heads(TurnHandover.Sent(o, s, env, a), PendingAfter(a))
  {
    hide Ensured;
    if a.AfterEnsure? {
      EnsuredHeads(o, StartTicker(o, s).(creating := false, pending := ""), env, a);
    }
  }

  lemma SendFailedHeads(s: Turn, a: After)
    requires Open(s)
    ensures Heads(SendFailed(s, a), None)
  {
  }

  lemma SendNowHeads(o: Options, s: Turn, env: Env, text: string, replay: bool, a: After)
    requires Open(s)
    ensures Heads(SendNow(o, s, env, text, replay, a), PendingAfter(a))
  {
    hide RequestEdit;
    RequestOpen(o, Titled(s, text, replay), env);
  }

  lemma SendProgressHeads(o: Options, s: Turn, env: Env, text: string, replay: bool, a: After)
    requires Open(s)
    ensures Heads(SendProgress(o, s, env, text, replay, a), PendingAfter(a))
  {
    hide TurnHandover.Sent, SendNow;
    SentHeads(o, s.(pending := ""), env, a);
    SentHeads(o, s, env, a);
    SendNowHeads(o, s, env, text, replay, a);
  }

  lemma EnsureHeads(o: Options, s: Turn, env: Env, a: After)
    requires Open(s) && a.AfterEnsure?
    ensures Heads(Ensure(o, s, env, a), None)
  {
    hide Ensured, SendProgress;
    EnsuredHeads(o, s, env, a);
    var heading := if s.pending != "" then s.pending
                   else if s.latest != "" then s.latest
                   else DEFAULT_HEADING;
    SendProgressHeads(o, s.(creating := true, latest := if s.latest == "" then heading else s.latest), env,
                      heading, false, a);
  }

  // ---- handlers

  /** An output short of a final text, and a final one without a visible text, announce nothing; a final text is
      on its way to be published. */
  lemma OutputHeads(o: Options, s: Turn, env: Env, out: Output)
    requires Open(s) && s.stand.Ready?
    ensures var t, a := HandleOutput(o, s, env, out), Announced(o, s, env, OutputArrives(out));
            Open(t) && (if a.Some? then Publishes(t.stand, a.value) else Pending(t.stand).None?)
  {
    hide HandleIntermediate, HandleTool, HandleProgress, HandleFinal;
    var u := s.(hadError := s.hadError || out.poisoned);
    match out.kind
    case Intermediate => IntermediateHeads(o, u, env, out);
    case ToolActivity => ToolHeads(o, u, env, out);
    case ProgressText => ProgressHeads(o, u, env, out);
    case FinalText => FinalHeads(o, u, env, out);
  }

  lemma FinalHeads(o: Options, s: Turn, env: Env, out: Output)
    requires Open(s)
    ensures var t := HandleFinal(o, s, env, out);
            && Open(t)
            && (if out.text != "" then Publishes(t.stand, Announcement(out.text, out.attached))
                else Pending(t.stand).None?)
  {
    hide Finalize, EndOutput;
    FinalizeHeads(o, s, env, FromOutput(out.error));
    EndOutputHeads(s, out.error);
  }

  lemma IntermediateHeads(o: Options, s: Turn, env: Env, out: Output)
    requires Open(s) && s.stand.Ready?
    ensures Heads(HandleIntermediate(o, s, env, out), None)
  {
    hide RequestEdit, SendProgress;
    RequestOpen(o, s.(pending := "", latest := out.text, forFinal := out.text), env);
    SendProgressHeads(o, s.(pending := out.text), env, out.text, true, AfterBuffer(out.text, false));
  }

  lemma ToolHeads(o: Options, s: Turn, env: Env, out: Output)
    requires Open(s)
    ensures Heads(HandleTool(o, s, env, out), None)
  {
    hide Ensure;
    EnsureHeads(o, s, env, AfterEnsure(true, false, false));
    EnsureHeads(o, if out.text != "" then StartTicker(o, s) else s, env, AfterEnsure(false, false, false));
  }

  lemma ProgressHeads(o: Options, s: Turn, env: Env, out: Output)
    requires Open(s) && s.stand.Ready?
    ensures Heads(HandleProgress(o, s, env, out), None)
  {
    hide RequestEdit, SendProgress, Ensure;
    EnsureHeads(o, if s.latest == "" then s.(latest := DEFAULT_HEADING) else s, env,
                AfterEnsure(true, true, out.error));
    RequestOpen(o, s.(latest := out.text, forFinal := out.text), env);
    SendProgressHeads(o, s.(pending := out.text), env, out.text, true, AfterBuffer(out.text, out.error));
  }

  lemma FinalizeHeads(o: Options, s: Turn, env: Env, origin: Origin)
    requires Open(s)
    ensures Heads(Finalize(o, s, env, origin), None)
  {
    hide RequestEdit;
    RequestOpen(o, StopTicker(s), env);
  }

  lemma EndOutputHeads(s: Turn, error: bool)
    requires Open(s)
    ensures Heads(EndOutput(s, error), None)
  {
  }

  lemma FinishedHeads(o: Options, s: Turn, env: Env, success: bool)
    requires Open(s) && (s.stand.Ready? || s.stand.FinishTyping?)
    ensures var t, a := Finished(o, s, env, success), AtFinish(o, s, env, success);
            Open(t) && (if a.Some? then Publishes(t.stand, a.value) else Pending(t.stand).None?)
  {
    hide Finalize;
    FinalizeHeads(o, s.(hadError := s.hadError || !success), env, FromFinish);
  }

  // ---- steps

  lemma CallMatches(o: Options, s: Turn, m: Move, q: Outcome)
    requires Enabled(s, m.event) && (m.event.OutputArrives? || m.event.FinishCalled?) && Matches(s, q) && q.Nothing?
    ensures Matches(Step(o, s, m.env, m.event), Next(o, s, m, q))
  {
    hide HandleOutput, Finished, AtFinish;
    match m.event
    case OutputArrives(out) => OutputHeads(o, s, m.env, out);
    case FinishCalled(success) => FinishedHeads(o, s, m.env, success);
  }

  lemma TaskMatches(o: Options, s: Turn, m: Move, q: Outcome)
    requires Enabled(s, m.event) && Matches(s, q) && (q.Nothing? || q.Due?)
    requires m.event.Tick? || m.event.EditDone? || m.event.DrainLoops?
    ensures Matches(Step(o, s, m.env, m.event), Next(o, s, m, q))
  {
    var t := Step(o, s, m.env, m.event);
    assert t.phase == s.phase && t.deliveries == s.deliveries && t.stand == s.stand;
    hide Step;
  }

  lemma ThrowMatches(o: Options, s: Turn, m: Move, q: Outcome)
    requires Enabled(s, m.event) && Matches(s, q) && (q.Nothing? || q.Due?) && m.event.TaskThrows?
    ensures Matches(Step(o, s, m.env, m.event), Next(o, s, m, q))
  {
    hide SendFailed;
    if s.stand.SendEdit? {
      SendFailedHeads(s.(task := CoalescingTask.AfterThrow(s.task)), s.stand.after);
    }
  }

  lemma ResumeMatches(o: Options, s: Turn, m: Move, q: Outcome)
    requires Enabled(s, m.event) && Matches(s, q) && (q.Nothing? || q.Due?) && m.event.Resumes?
    ensures Matches(Step(o, s, m.env, m.event), Next(o, s, m, q))
  {
    hide TurnHandover.Sent, SendProgress, EndOutput, ResetProgress;
    match s.stand
    case PublishStart(p) =>
      SendProgressHeads(o, s.(task := CoalescingTask.AfterCancel(CoalescingTask.AfterStop(s.task))), m.env,
                        s.pending, true, AfterFlush(p));
    case SendEdit(a) => SentHeads(o, s.(phase := Progress), m.env, a);
    case Finalizing(origin) =>
      ResetOpen(s);
      EndOutputHeads(ResetProgress(s).(forFinal := ""), if origin.FromOutput? then origin.error else false);
    case PublishFlushed(p) =>
    case PublishIdle(p) => ResetOpen(s);
  }

  lemma ResetOpen(s: Turn)
    ensures var t := ResetProgress(s); t.phase == s.phase && t.deliveries == s.deliveries && t.stand == s.stand
  {
  }

  lemma TypingMatches(o: Options, s: Turn, m: Move, q: Outcome)
    requires Enabled(s, m.event) && Matches(s, q) && (q.Nothing? || q.Due?) && m.event.TypingDone?
    ensures Matches(Step(o, s, m.env, m.event), Next(o, s, m, q))
  {
    hide SendNow, SendFailed, Finished, EndOutput, AtFinish;
    match s.stand
    case SendTyping(text, replay, a) =>
      SendNowHeads(o, s.(typing := true), m.env, text, replay, a);
      SendFailedHeads(s, a);
    case DeliverTyping(p, replace) => DeliverMatches(s.(typing := true), m.env, p, replace);
    case OutputTyping(error) =>
    case FinishTyping(success) =>
      FinishedHeads(o, s.(typing := false), m.env, success);
      SameAtFinish(o, s, m.env, success);
  }

  lemma SameAtFinish(o: Options, s: Turn, env: Env, success: bool)
    ensures AtFinish(o, s.(typing := false), env, success) == AtFinish(o, s, env, success)
  {
  }

  lemma DeliverMatches(s: Turn, env: Env, p: Publication, replace: Option<Id>)
    requires Open(s)
    ensures var t := Deliver(s, env, p, replace);
            && t.phase == Final
            && t.deliveries == if env.mayDeliver then [Delivery(p.text, replace)] else []
  {
  }

  lemma AnswerMatches(o: Options, s: Turn, m: Move, q: Outcome)
    requires Enabled(s, m.event) && Matches(s, q) && (q.Nothing? || q.Due?) && Inv(s)
    requires m.event.CreateDone? || m.event.PlainDone? || m.event.DeliverDone?
    ensures Matches(Step(o, s, m.env, m.event), Next(o, s, m, q))
  {
    hide TurnHandover.Sent, SendFailed;
    match m.event
    case CreateDone(id) =>
      if id.Some? {
        SentHeads(o, Tracked(o, s.(rendered := Some(s.stand.shown)), id.value), m.env, s.stand.after);
      }
    case PlainDone(ok) =>
      SentHeads(o, s.(phase := Progress), m.env, s.stand.after);
      SendFailedHeads(s, s.stand.after);
    case DeliverDone(_) =>
  }

  lemma StepMatches(o: Options, s: Turn, m: Move, q: Outcome)
    requires Inv(s) && Enabled(s, m.event) && Matches(s, q)
    ensures Matches(Step(o, s, m.env, m.event), Next(o, s, m, q))
  {
    if q.Sent? || q.Denied? {
      StepFrozen(o, s, m.env, m.event);
      hide Step, Inv;
    } else {
      hide Inv, Step, Matches, Next;
      if m.event.OutputArrives? || m.event.FinishCalled? {
        assert q.Nothing? by { ReadyHasNothing(s, q, m.event); }
        CallMatches(o, s, m, q);
      } else if m.event.Tick? || m.event.EditDone? || m.event.DrainLoops? {
        TaskMatches(o, s, m, q);
      } else if m.event.TaskThrows? {
        ThrowMatches(o, s, m, q);
      } else if m.event.Resumes? {
        ResumeMatches(o, s, m, q);
      } else if m.event.TypingDone? {
        TypingMatches(o, s, m, q);
      } else {
        AnswerMatches(o, s, m, q);
      }
    }
  }

  lemma ReadyHasNothing(s: Turn, q: Outcome, e: Event)
    requires Enabled(s, e) && (e.OutputArrives? || e.FinishCalled?) && Matches(s, q) && (q.Nothing? || q.Due?)
    ensures q.Nothing?
  {
  }

  lemma {:induction false} RunMatches(o: Options, s: Turn, ms: seq<Move>, q: Outcome)
    requires Inv(s) && Matches(s, q) && Runs(o, s, ms)
    ensures Matches(Exec(o, s, ms), OutcomeOf(o, s, ms, q))
    decreases |ms|
  {
    hide Inv, Matches, Step, Enabled, Next;
    if ms != [] {
      StepMatches(o, s, ms[0], q);
      StepInv(o, s, ms[0].env, ms[0].event);
      RunMatches(o, Step(o, s, ms[0].env, ms[0].event), ms[1..], Next(o, s, ms[0], q));
    }
  }

  // ---- the guarantees

  /** For every turn, at every point of it: something has been delivered exactly when a handler that announced a
      text has come to its delivery without being abandoned and the run could then deliver, and what was
      delivered is that text, once. And a handler that has returned leaves no announced text undelivered,
      unless it was abandoned or the run may not deliver. */
  lemma TurnDelivers(o: Options, typing: bool, ms: seq<Move>)
    requires Runs(o, Begin(typing), ms)
    ensures var s, q := Exec(o, Begin(typing), ms), OutcomeOf(o, Begin(typing), ms, Nothing);
            && (s.deliveries != [] <==> q.Sent?)
            && (q.Sent? ==> |s.deliveries| == 1 && s.deliveries[0].text == q.sent.text
                            && (q.sent.attached ==> s.deliveries[0].replace.None?))
            && (s.phase == Final <==> q.Sent? || q.Denied?)
            && (s.stand.Ready? ==> !q.Due?)
  {
    assert Matches(Begin(typing), Nothing);
    hide Runs, Exec, OutcomeOf, Inv;
    BeginInv(typing);
    RunMatches(o, Begin(typing), ms, Nothing);
  }

  // ---- one publication, with the message it replaces

  predicate NewHandler(e: Event) {
    e.OutputArrives? || e.FinishCalled?
  }

  /** Until the running handler has returned: no other one is started, and it is not abandoned. */
  predicate Undisturbed(o: Options, s: Turn, ms: seq<Move>)
    requires Runs(o, s, ms)
    decreases |ms|
  {
    ms == []
    || (!NewHandler(ms[0].event) && !Abandons(s, ms[0].event)
        && Undisturbed(o, Step(o, s, ms[0].env, ms[0].event), ms[1..]))
  }

  /** The run may still deliver when the handler comes to its delivery. */
  predicate Permitted(o: Options, s: Turn, ms: seq<Move>)
    requires Runs(o, s, ms)
    decreases |ms|
  {
    ms != [] && (if AtDelivery(s, ms[0].event) then ms[0].env.mayDeliver
                 else Permitted(o, Step(o, s, ms[0].env, ms[0].event), ms[1..]))
  }

  function Ids(id: Option<Id>): set<Id> {
    if id.Some? then {id.value} else {}
  }

  /** The message that is tracked when the publication that began at s0 comes to the hand-over: the one that has
      been created since, or else the one that was tracked then. */
  function GivenUp(s0: Turn, s: Turn): set<Id> {
    if s.used == s0.used then Ids(s0.id) else s.used - s0.used
  }

  /** The publication of a that began at s0, before its delivery. */
  predicate Carries(s0: Turn, s: Turn, a: Announcement) {
    && Matches(s, Due(a)) && s0.used <= s.used
    && (match s.stand
        case DeliverTyping(_, replace) =>
          s.handed == s0.handed + GivenUp(s0, s) && (!a.attached ==> Ids(replace) == GivenUp(s0, s))
        case PublishFlushed(_) => s.handed == s0.handed && Ids(s.id) == GivenUp(s0, s)
        case PublishIdle(_) => s.handed == s0.handed && Ids(s.id) == GivenUp(s0, s)
        case _ => s.handed == s0.handed && s.used == s0.used && s.id == s0.id)
  }

  /** Done: the text has been delivered, if it could be, in place of the tracked message unless it came with
      attachments; and that message is given up. */
  predicate Published(s0: Turn, s: Turn, a: Announcement, permitted: bool) {
    && s.phase == Final && s.handed == s0.handed + GivenUp(s0, s)
    && (if permitted then
          && |s.deliveries| == 1 && s.deliveries[0].text == a.text
          && (if a.attached then s.deliveries[0].replace.None? else Ids(s.deliveries[0].replace) == GivenUp(s0, s))
        else s.deliveries == [])
  }

  /** What a part of a step does that neither tracks another message nor gives one up. */
  predicate SameIds(s: Turn, t: Turn) {
    t.id == s.id && t.used == s.used && t.handed == s.handed
  }

  lemma RequestSameIds(o: Options, s: Turn, env: Env)
    ensures SameIds(s, RequestEdit(o, s, env))
  {
  }

  lemma FlushSameIds(o: Options, s: Turn, env: Env, text: string, p: Publication)
    ensures SameIds(s, SendProgress(o, s, env, text, true, AfterFlush(p)))
    ensures SameIds(s, SendNow(o, s, env, text, true, AfterFlush(p)))
    ensures SameIds(s, TurnHandover.Sent(o, s, env, AfterFlush(p)))
    ensures TurnHandover.Sent(o, s, env, AfterFlush(p)).stand == PublishFlushed(p)
  {
    hide RequestEdit;
    RequestSameIds(o, Titled(s, text, true), env);
  }

  lemma AnnouncedStarts(o: Options, s: Turn, m: Move)
    requires Enabled(s, m.event) && Announced(o, s, m.env, m.event).Some?
    ensures var t := Step(o, s, m.env, m.event); SameIds(s, t) && t.stand.PublishStart?
  {
    hide HandleOutput, Finished;
    match m.event
    case OutputArrives(out) => FinalStarts(o, s, m.env, out);
    case FinishCalled(success) => FinishStarts(o, s, m.env, success);
    case TypingDone(_) => FinishStarts(o, s.(typing := false), m.env, s.stand.success);
  }

  lemma FinalStarts(o: Options, s: Turn, env: Env, out: Output)
    requires s.phase != Final && out.kind == FinalText && out.text != ""
    ensures var t := HandleOutput(o, s, env, out); SameIds(s, t) && t.stand.PublishStart?
  {
    hide HandleIntermediate, HandleTool, HandleProgress, Finalize;
  }

  lemma FinishStarts(o: Options, s: Turn, env: Env, success: bool)
    requires AtFinish(o, s, env, success).Some?
    ensures var t := Finished(o, s, env, success); SameIds(s, t) && t.stand.PublishStart?
  {
    hide Finalize, ResetProgress;
  }

  lemma AnnouncedCarries(o: Options, s: Turn, m: Move)
    requires Inv(s) && Enabled(s, m.event) && Matches(s, Nothing) && Announced(o, s, m.env, m.event).Some?
    ensures Carries(s, Step(o, s, m.env, m.event), Announced(o, s, m.env, m.event).value)
  {
    AnnouncedStarts(o, s, m);
    StepMatches(o, s, m, Nothing);
    hide Step, Inv, Matches, Announced;
  }

  /** A step of the running publication, short of its delivery. */
  lemma StepCarries(o: Options, s0: Turn, s: Turn, m: Move, a: Announcement)
    requires Inv(s) && Enabled(s, m.event) && Carries(s0, s, a)
    requires !NewHandler(m.event) && !Abandons(s, m.event) && !AtDelivery(s, m.event)
    ensures Carries(s0, Step(o, s, m.env, m.event), a)
  {
    StepMatches(o, s, m, Due(a));
    match m.event
    case Resumes => ResumeCarries(o, s0, s, m, a);
    case TypingDone(ok) => TypingCarries(o, s0, s, m, a);
    case CreateDone(id) => CreateCarries(o, s0, s, m, a);
    case PlainDone(ok) => PlainCarries(o, s0, s, m, a);
    case DeliverDone(_) =>
    case _ => TaskCarries(o, s, m);
  }

  lemma TaskCarries(o: Options, s: Turn, m: Move)
    requires Enabled(s, m.event) && !Abandons(s, m.event)
    requires m.event.Tick? || m.event.EditDone? || m.event.DrainLoops? || m.event.TaskThrows?
    ensures var t := Step(o, s, m.env, m.event); SameIds(s, t) && t.stand == s.stand
  {
    hide SendFailed;
  }

  /** Before any message is created or given up. */
  lemma EarlyCarries(s0: Turn, s: Turn, t: Turn, a: Announcement)
    requires SameIds(s0, s) && SameIds(s, t) && Matches(t, Due(a)) && !t.stand.DeliverTyping?
    ensures Carries(s0, t, a)
  {
    hide Matches;
  }

  lemma PublishingSameIds(o: Options, s: Turn, env: Env, p: Publication)
    ensures var t := Publishing(o, s, env, p); SameIds(s, t) && !t.stand.DeliverTyping?
  {
    hide SendProgress;
    var quiet := s.(task := CoalescingTask.AfterCancel(CoalescingTask.AfterStop(s.task)));
    FlushSameIds(o, quiet, env, s.pending, p);
    FlushStands(o, quiet, env, s.pending, p);
  }

  lemma ResumeCarries(o: Options, s0: Turn, s: Turn, m: Move, a: Announcement)
    requires Enabled(s, m.event) && Carries(s0, s, a) && m.event.Resumes?
    requires Matches(Step(o, s, m.env, m.event), Due(a))
    ensures Carries(s0, Step(o, s, m.env, m.event), a)
  {
    hide Publishing, TurnHandover.Sent, Matches;
    CarriesPublishes(s0, s, a);
    match s.stand
    case PublishStart(p) =>
      PublishingSameIds(o, s, m.env, p);
      EarlyCarries(s0, s, Publishing(o, s, m.env, p), a);
    case SendEdit(x) =>
      FlushSameIds(o, s.(phase := Progress), m.env, "", x.p);
      EarlyCarries(s0, s, TurnHandover.Sent(o, s.(phase := Progress), m.env, x), a);
    case PublishFlushed(p) =>
    case PublishIdle(p) =>
  }

  lemma CarriesPublishes(s0: Turn, s: Turn, a: Announcement)
    requires Carries(s0, s, a)
    ensures Publishes(s.stand, a) && s.phase != Final
  {
  }

  /** A flush ends at once or goes on to a send. */
  lemma FlushStands(o: Options, s: Turn, env: Env, text: string, p: Publication)
    ensures !SendProgress(o, s, env, text, true, AfterFlush(p)).stand.DeliverTyping?
  {
    hide RequestEdit;
  }

  lemma TypingCarries(o: Options, s0: Turn, s: Turn, m: Move, a: Announcement)
    requires Enabled(s, m.event) && Carries(s0, s, a) && m.event.TypingDone? && !Abandons(s, m.event)
    requires !AtDelivery(s, m.event) && Matches(Step(o, s, m.env, m.event), Due(a))
    ensures Carries(s0, Step(o, s, m.env, m.event), a)
  {
    hide Matches;
    CarriesPublishes(s0, s, a);
    FlushSameIds(o, s.(typing := true), m.env, s.stand.text, s.stand.after.p);
    hide RequestEdit;
  }

  lemma CreateCarries(o: Options, s0: Turn, s: Turn, m: Move, a: Announcement)
    requires Enabled(s, m.event) && Carries(s0, s, a) && m.event.CreateDone?
    requires Matches(Step(o, s, m.env, m.event), Due(a))
    ensures Carries(s0, Step(o, s, m.env, m.event), a)
  {
    CarriesPublishes(s0, s, a);
    var t := Step(o, s, m.env, m.event);
    CreateForm(o, s, m);
    hide Step, Matches;
    if m.event.id.Some? {
      assert t.used - s.used == Ids(m.event.id);
    }
  }

  /** A message created for the flush becomes the tracked one. */
  lemma CreateForm(o: Options, s: Turn, m: Move)
    requires Enabled(s, m.event) && m.event.CreateDone? && s.stand.after.AfterFlush?
    ensures var t := Step(o, s, m.env, m.event);
            && t.handed == s.handed && t.used == s.used + Ids(m.event.id)
            && (if m.event.id.Some? then t.id == m.event.id && t.stand.PublishFlushed?
                else t.id == s.id && t.stand.SendPlain?)
  {
    hide Ensured;
  }

  lemma PlainCarries(o: Options, s0: Turn, s: Turn, m: Move, a: Announcement)
    requires Enabled(s, m.event) && Carries(s0, s, a) && m.event.PlainDone? && !Abandons(s, m.event)
    requires Matches(Step(o, s, m.env, m.event), Due(a))
    ensures Carries(s0, Step(o, s, m.env, m.event), a)
  {
    hide Matches;
    CarriesPublishes(s0, s, a);
  }

  /** The step of the delivery. */
  lemma DeliveryPublishes(o: Options, s0: Turn, s: Turn, m: Move, a: Announcement)
    requires Enabled(s, m.event) && Carries(s0, s, a) && AtDelivery(s, m.event)
    ensures Published(s0, Step(o, s, m.env, m.event), a, m.env.mayDeliver)
  {
  }

  lemma PublishedStays(o: Options, s0: Turn, s: Turn, ms: seq<Move>, a: Announcement, permitted: bool)
    requires Inv(s) && Runs(o, s, ms) && Published(s0, s, a, permitted)
    ensures Published(s0, Exec(o, s, ms), a, permitted)
  {
    hide Runs, Exec, Inv;
    FinalIsFinal(o, s, ms);
    HandedStays(o, s, ms);
  }

  /** After the final phase no message is given up. */
  lemma {:induction false} HandedStays(o: Options, s: Turn, ms: seq<Move>)
    requires Inv(s) && Runs(o, s, ms) && s.phase == Final
    ensures Exec(o, s, ms).handed == s.handed
    decreases |ms|
  {
    hide Inv, Step, Enabled;
    if ms != [] {
      StepInv(o, s, ms[0].env, ms[0].event);
      StepFrozen(o, s, ms[0].env, ms[0].event);
      StepHandsNothing(o, s, ms[0].env, ms[0].event);
      HandedStays(o, Step(o, s, ms[0].env, ms[0].event), ms[1..]);
    }
  }

  lemma StepHandsNothing(o: Options, s: Turn, env: Env, e: Event)
    requires Inv(s) && Enabled(s, e) && s.phase == Final
    ensures Step(o, s, env, e).handed == s.handed
  {
    FinalStands(s);
    hide Inv, Finalize, ResetProgress, SendFailed, RequestEdit, SendNow, Created, TurnHandover.Sent, Publishing,
         HandleIntermediate, HandleTool, HandleProgress, HandleFinal;
    assert RequestEdit(o, s, env).handed == s.handed by { RequestSameIds(o, s, env); }
  }

  lemma {:induction false} CarriesOut(o: Options, s0: Turn, s: Turn, ms: seq<Move>, a: Announcement)
    requires Inv(s) && Carries(s0, s, a) && Runs(o, s, ms) && Undisturbed(o, s, ms) && Exec(o, s, ms).stand.Ready?
    ensures Published(s0, Exec(o, s, ms), a, Permitted(o, s, ms))
    decreases |ms|
  {
    hide Inv, Carries, Step, Enabled, Published, AtDelivery, Abandons;
    if ms == [] {
      CarriesIsBusy(s0, s, a);
    } else {
      var t := Step(o, s, ms[0].env, ms[0].event);
      StepInv(o, s, ms[0].env, ms[0].event);
      if AtDelivery(s, ms[0].event) {
        DeliveryPublishes(o, s0, s, ms[0], a);
        PublishedStays(o, s0, t, ms[1..], a, ms[0].env.mayDeliver);
      } else {
        StepCarries(o, s0, s, ms[0], a);
        CarriesOut(o, s0, t, ms[1..], a);
      }
    }
  }

  lemma CarriesIsBusy(s0: Turn, s: Turn, a: Announcement)
    requires Carries(s0, s, a)
    ensures !s.stand.Ready?
  {
  }

  /** Of every handler that announces a text, at any point of any turn: once it has returned without being
      abandoned, the text has been delivered if the run could then deliver, in place of the tracked message
      unless it came with attachments. */
  lemma AnnouncementIsDelivered(o: Options, typing: bool, before: seq<Move>, m: Move, ms: seq<Move>)
    requires Runs(o, Begin(typing), before)
    requires var s := Exec(o, Begin(typing), before);
             && Enabled(s, m.event) && Announced(o, s, m.env, m.event).Some? && s.phase != Final
             && Pending(s.stand).None?
             && var t := Step(o, s, m.env, m.event);
                Runs(o, t, ms) && Undisturbed(o, t, ms) && Exec(o, t, ms).stand.Ready?
    ensures var s := Exec(o, Begin(typing), before);
            var t := Step(o, s, m.env, m.event);
            Published(s, Exec(o, t, ms), Announced(o, s, m.env, m.event).value, Permitted(o, t, ms))
  {
    var s := Exec(o, Begin(typing), before);
    assert Matches(s, Nothing) by { FreshMatches(o, typing, before); }
    hide *;
    FromStart(o, typing, before);
    AnnouncedCarries(o, s, m);
    StepInv(o, s, m.env, m.event);
    CarriesOut(o, s, Step(o, s, m.env, m.event), ms, Announced(o, s, m.env, m.event).value);
  }

  lemma FreshMatches(o: Options, typing: bool, before: seq<Move>)
    requires Runs(o, Begin(typing), before)
    requires var s := Exec(o, Begin(typing), before); s.phase != Final && Pending(s.stand).None?
    ensures Matches(Exec(o, Begin(typing), before), Nothing)
  {
    assert Matches(Begin(typing), Nothing);
    hide Runs, Exec, OutcomeOf, Inv;
    BeginInv(typing);
    RunMatches(o, Begin(typing), before, Nothing);
  }

  /** In particular of a final output with a visible text that comes before the final phase. */
  lemma FinalTextIsDelivered(o: Options, typing: bool, before: seq<Move>, env: Env, out: Output, ms: seq<Move>)
    requires Runs(o, Begin(typing), before) && out.kind == FinalText && out.text != ""
    requires var s := Exec(o, Begin(typing), before);
             && s.stand.Ready? && s.phase != Final
             && var t := Step(o, s, env, OutputArrives(out));
                && Runs(o, t, ms) && Undisturbed(o, t, ms) && Exec(o, t, ms).stand.Ready?
                && forall m :: m in ms ==> m.env.mayDeliver
    ensures var s := Exec(o, Begin(typing), before);
            var r := Exec(o, Step(o, s, env, OutputArrives(out)), ms);
            && |r.deliveries| == 1 && r.deliveries[0].text == out.text
            && (if out.attached then r.deliveries[0].replace.None?
                else Ids(r.deliveries[0].replace) == GivenUp(s, r))
  {
    hide Runs, Exec, Undisturbed, Permitted, GivenUp, Step;
    var s := Exec(o, Begin(typing), before);
    var t := Step(o, s, env, OutputArrives(out));
    AnnouncementIsDelivered(o, typing, before, Move(OutputArrives(out), env), ms);
    AnnouncedIsBusy(o, typing, before, Move(OutputArrives(out), env));
    AlwaysPermitted(o, typing, before, t, ms, Move(OutputArrives(out), env));
  }

  lemma AnnouncedIsBusy(o: Options, typing: bool, before: seq<Move>, m: Move)
    requires Runs(o, Begin(typing), before)
    requires var s := Exec(o, Begin(typing), before);
             Enabled(s, m.event) && Announced(o, s, m.env, m.event).Some? && s.phase != Final && Pending(s.stand).None?
    ensures var s := Exec(o, Begin(typing), before);
            Carries(s, Step(o, s, m.env, m.event), Announced(o, s, m.env, m.event).value)
  {
    FreshMatches(o, typing, before);
    hide *;
    FromStart(o, typing, before);
    AnnouncedCarries(o, Exec(o, Begin(typing), before), m);
  }

  lemma AlwaysPermitted(o: Options, typing: bool, before: seq<Move>, t: Turn, ms: seq<Move>, m: Move)
    requires Runs(o, Begin(typing), before)
    requires var s := Exec(o, Begin(typing), before);
             && Enabled(s, m.event) && t == Step(o, s, m.env, m.event)
             && Announced(o, s, m.env, m.event).Some? && s.phase != Final && Pending(s.stand).None?
    requires Runs(o, t, ms) && Undisturbed(o, t, ms) && Exec(o, t, ms).stand.Ready?
    requires forall m :: m in ms ==> m.env.mayDeliver
    ensures Permitted(o, t, ms)
  {
    hide *;
    var s := Exec(o, Begin(typing), before);
    FromStart(o, typing, before);
    StepInv(o, s, m.env, m.event);
    AnnouncedIsBusy(o, typing, before, m);
    ComesToDelivery(o, s, t, ms, Announced(o, s, m.env, m.event).value);
  }

  lemma {:induction false} ComesToDelivery(o: Options, s0: Turn, s: Turn, ms: seq<Move>, a: Announcement)
    requires Inv(s) && Carries(s0, s, a) && Runs(o, s, ms) && Undisturbed(o, s, ms) && Exec(o, s, ms).stand.Ready?
    requires forall m :: m in ms ==> m.env.mayDeliver
    ensures Permitted(o, s, ms)
    decreases |ms|
  {
    hide Inv, Carries, Step, Enabled, AtDelivery, Abandons;
    if ms == [] {
      CarriesIsBusy(s0, s, a);
    } else {
      assert ms[0] in ms && forall m :: m in ms[1..] ==> m in ms;
      if !AtDelivery(s, ms[0].event) {
        StepInv(o, s, ms[0].env, ms[0].event);
        StepCarries(o, s0, s, ms[0], a);
        ComesToDelivery(o, s0, Step(o, s, ms[0].env, ms[0].event), ms[1..], a);
      }
    }
  }
}
