/** The turn controller as an object: each method runs from its call, or from where an await left it, to
    the next await, and is proved to do what the machine in TurnHandover does. What the event loop calls
    keeps the invariant of TurnSafety, and issues no edit of a message given up before. */
module MessageTurn {
  import opened Basics
  import opened TurnHandover
  import opened TurnSafety
  import CoalescingTask

  class MessageTurnController {
    const options: Options
    const progressEdits: CoalescingTask.CoalescingAsyncTask

    var editInFlight: Option<Edit>
    var progressMessageId: Option<Id>
    var latestProgressText: string
    var latestProgressRendered: Option<string>
    var pendingProgressText: string
    var latestProgressTextForFinal: string
    var progressEditFailCount: nat
    var progressCreating: bool
    var visiblePhase: Phase
    var hadError: bool
    var typingActive: bool

    /** Where the running handler waits. */
    var stand: Stand

    ghost var used: set<Id>
    ghost var handed: set<Id>
    ghost var edits: seq<Id>
    ghost var deliveries: seq<Delivery>

    ghost function View(): Turn
      reads this, progressEdits
    {
      Turn(progressEdits.View(), editInFlight, progressMessageId, latestProgressText,
           latestProgressRendered, pendingProgressText, latestProgressTextForFinal,
           progressEditFailCount, progressCreating, visiblePhase, hadError, typingActive, stand,
           used, handed, edits, deliveries)
    }

    /** No message given up for a final text is tracked or edited. */
    ghost predicate Valid()
      reads this, progressEdits
    {
      Inv(View())
    }

    constructor (options: Options, typing: bool)
      ensures Valid() && this.options == options && View() == Begin(typing) && fresh(progressEdits)
    {
      BeginInv(typing);
      this.options := options;
      progressEdits := new CoalescingTask.CoalescingAsyncTask();
      editInFlight, progressMessageId, latestProgressRendered := None, None, None;
      latestProgressText, pendingProgressText, latestProgressTextForFinal := "", "", "";
      progressEditFailCount, progressCreating, visiblePhase := 0, false, Silent;
      hadError, typingActive, stand := false, typing, Ready;
      used, handed, edits, deliveries := {}, {}, [], [];
    }

    // ---- the edit task

    /** The task up to its await. */
    method SyncTrackedProgressMessageOnce(env: Env)
      modifies this, progressEdits
      ensures View() == Sync(options, old(View()), env)
    {
      if !env.mayDeliver {
        return;
      }
      if progressMessageId.None? || !options.editable || latestProgressText == "" {
        return;
      }
      if Some(env.shown) == latestProgressRendered {
        return;
      }
      editInFlight := Some(Edit(progressMessageId.value, env.shown));
      edits := edits + [progressMessageId.value];
    }

    method RequestEdit(env: Env)
      modifies this, progressEdits
      ensures View() == TurnHandover.RequestEdit(options, old(View()), env)
    {
      hide Sync, CoalescingTask.AfterRequest;
      var runs := progressEdits.Request();
      if runs {
        SyncTrackedProgressMessageOnce(env);
      }
    }

    method StartTicker()
      modifies progressEdits
      ensures View() == TurnHandover.StartTicker(options, old(View()))
    {
      progressEdits.Start(options.editable);
    }

    /** The task after its await. */
    method EditAnswered(ok: bool)
      requires editInFlight.Some?
      modifies this, progressEdits
      ensures View() == TurnHandover.EditAnswered(old(View()), ok)
    {
      hide CoalescingTask.AfterStop;
      var e := editInFlight.value;
      editInFlight := None;
      if progressMessageId != Some(e.id) {
        return;
      }
      if ok {
        latestProgressRendered := Some(e.shown);
        progressEditFailCount := 0;
        return;
      }
      progressEditFailCount := progressEditFailCount + 1;
      latestProgressRendered := None;
      if progressEditFailCount >= 3 {
        progressEdits.Stop();
      }
    }

    method ResetProgressState()
      modifies this, progressEdits
      ensures View() == ResetProgress(old(View()))
    {
      hide CoalescingTask.AfterStop, CoalescingTask.AfterCancel;
      progressEdits.Stop();
      progressEdits.CancelPending();
      pendingProgressText := "";
      progressCreating := false;
      latestProgressText := "";
      latestProgressRendered := None;
      progressMessageId := None;
      progressEditFailCount := 0;
    }

    // ---- ends of handlers

    method EndOutput(error: bool)
      modifies this
      ensures View() == TurnHandover.EndOutput(old(View()), error)
    {
      if typingActive {
        stand := OutputTyping(error);
      } else {
        stand := Ready;
        hadError := hadError || error;
      }
    }

    method EndFinish()
      modifies this, progressEdits
      ensures View() == TurnHandover.EndFinish(old(View()))
    {
      hide CoalescingTask.AfterStop;
      progressEdits.Stop();
      stand := Ready;
    }

    method AfterPublish(origin: Origin)
      modifies this, progressEdits
      ensures View() == TurnHandover.AfterPublish(old(View()), origin)
    {
      hide TurnHandover.EndOutput, TurnHandover.EndFinish;
      match origin
      case FromOutput(error) => EndOutput(error);
      case FromFinish => EndFinish();
    }

    // ---- sending progress

    method Ensured(env: Env, a: After)
      requires a.AfterEnsure?
      modifies this, progressEdits
      ensures View() == TurnHandover.Ensured(options, old(View()), env, a)
    {
      hide TurnHandover.RequestEdit, CoalescingTask.AfterStart;
      if a.subagent {
        StartTicker();
      }
      if a.progress && progressMessageId.Some? {
        RequestEdit(env);
      }
      stand := Ready;
      hadError := hadError || a.error;
    }

    method Sent(env: Env, a: After)
      modifies this, progressEdits
      ensures View() == TurnHandover.Sent(options, old(View()), env, a)
    {
      hide TurnHandover.Ensured, CoalescingTask.AfterStart;
      match a
      case AfterBuffer(text, error) =>
        stand := Ready;
        if pendingProgressText == text {
          pendingProgressText := "";
        }
        hadError := hadError || error;
      case AfterEnsure(_, _, _) =>
        StartTicker();
        progressCreating := false;
        pendingProgressText := "";
        Ensured(env, a);
      case AfterFlush(p) =>
        pendingProgressText := "";
        stand := PublishFlushed(p);
    }

    method SendFailed(a: After)
      modifies this
      ensures View() == TurnHandover.SendFailed(old(View()), a)
    {
      stand := Ready;
      match a
      case AfterBuffer(text, _) =>
        if pendingProgressText == text {
          pendingProgressText := "";
        }
      case AfterEnsure(_, _, _) => progressCreating := false;
      case AfterFlush(_) =>
    }

    method SendProgressMessage(env: Env, text: string, replay: bool, a: After)
      modifies this, progressEdits
      ensures View() == SendProgress(options, old(View()), env, text, replay, a)
    {
      hide TurnHandover.Sent, TurnHandover.SendNow;
      if !env.mayDeliver {
        pendingProgressText := "";
        Sent(env, a);
        return;
      }
      if text == "" || (text == latestProgressText && progressMessageId.Some?) {
        Sent(env, a);
        return;
      }
      if typingActive {
        SendNow(env, text, replay, a);
      } else {
        stand := SendTyping(text, replay, a);
      }
    }

    method SendNow(env: Env, text: string, replay: bool, a: After)
      modifies this, progressEdits
      ensures View() == TurnHandover.SendNow(options, old(View()), env, text, replay, a)
    {
      hide TurnHandover.RequestEdit, Titled;
      SetTitle(text, replay);
      if progressMessageId.Some? && options.editable {
        RequestEdit(env);
        stand := SendEdit(a);
      } else if !options.trackable {
        latestProgressRendered := Some(env.shown);
        stand := SendPlain(a);
      } else {
        stand := Creating(env.shown, a);
      }
    }

    method SetTitle(text: string, replay: bool)
      modifies this
      ensures View() == Titled(old(View()), text, replay)
    {
      if replay {
        latestProgressTextForFinal := text;
      }
      latestProgressText := text;
    }

    method TrackMessage(i: Id)
      modifies this, progressEdits
      ensures View() == Tracked(options, old(View()), i)
    {
      hide CoalescingTask.AfterStart;
      progressMessageId := Some(i);
      used := used + {i};
      StartTicker();
      visiblePhase := Progress;
    }

    method ProgressMessageCreated(env: Env, id: Option<Id>)
      requires stand.Creating?
      modifies this, progressEdits
      ensures View() == Created(options, old(View()), env, id)
    {
      hide TurnHandover.Sent, Tracked;
      var a := stand.after;
      latestProgressRendered := Some(stand.shown);
      match id
      case None => stand := SendPlain(a);
      case Some(i) =>
        TrackMessage(i);
        Sent(env, a);
    }

    method EnsureProgressMessageExists(env: Env, a: After)
      requires a.AfterEnsure?
      modifies this, progressEdits
      ensures View() == Ensure(options, old(View()), env, a)
    {
      hide TurnHandover.Ensured, SendProgress;
      if progressMessageId.Some? || progressCreating {
        Ensured(env, a);
        return;
      }
      progressCreating := true;
      var heading := if pendingProgressText != "" then pendingProgressText
                     else if latestProgressText != "" then latestProgressText
                     else DEFAULT_HEADING;
      if latestProgressText == "" {
        latestProgressText := heading;
      }
      SendProgressMessage(env, heading, false, a);
    }

    method BufferProgress(env: Env, text: string, error: bool)
      modifies this, progressEdits
      ensures View() == Buffer(options, old(View()), env, text, error)
    {
      hide SendProgress;
      pendingProgressText := text;
      SendProgressMessage(env, text, true, AfterBuffer(text, error));
    }

    method NewHeading(env: Env, text: string)
      modifies this, progressEdits
      ensures View() == TurnHandover.NewHeading(options, old(View()), env, text)
    {
      hide TurnHandover.RequestEdit;
      latestProgressText := text;
      latestProgressTextForFinal := text;
      RequestEdit(env);
    }

    // ---- publishing

    method FlushPendingProgress(env: Env, p: Publication)
      modifies this, progressEdits
      ensures View() == Flush(options, old(View()), env, p)
    {
      hide SendProgress;
      if !env.mayDeliver || (pendingProgressText != "" && options.reviewing) {
        pendingProgressText := "";
        stand := PublishFlushed(p);
        return;
      }
      if pendingProgressText != "" && pendingProgressText != p.text {
        SendProgressMessage(env, pendingProgressText, true, AfterFlush(p));
      } else {
        pendingProgressText := "";
        stand := PublishFlushed(p);
      }
    }

    method PublishTerminalText(env: Env, p: Publication)
      modifies this, progressEdits
      ensures View() == Publishing(options, old(View()), env, p)
    {
      hide Flush, CoalescingTask.AfterStop, CoalescingTask.AfterCancel;
      progressEdits.Stop();
      progressEdits.CancelPending();
      if p.flush {
        FlushPendingProgress(env, p);
      } else {
        stand := PublishIdle(p);
      }
    }

    /** Consumes the progress message, or discards it when there are attachments. */
    method HandOverProgress(p: Publication)
      modifies this, progressEdits
      ensures View() == HandOver(old(View()), p)
    {
      hide CoalescingTask.AfterStop, CoalescingTask.AfterCancel;
      var replace := if p.attached then None else progressMessageId;
      handed := handed + (if progressMessageId.Some? then {progressMessageId.value} else {});
      ResetProgressState();
      stand := DeliverTyping(p, replace);
    }

    method DeliverFinalText(env: Env, p: Publication, replace: Option<Id>)
      modifies this, progressEdits
      ensures View() == Deliver(old(View()), env, p, replace)
    {
      hide TurnHandover.AfterPublish;
      visiblePhase := Final;
      if !env.mayDeliver {
        latestProgressTextForFinal := "";
        AfterPublish(p.origin);
        return;
      }
      deliveries := deliveries + [Delivery(p.text, replace)];
      stand := Delivering(p.origin);
    }

    method FinalizeProgressMessage(env: Env, origin: Origin)
      modifies this, progressEdits
      ensures View() == Finalize(options, old(View()), env, origin)
    {
      hide TurnHandover.RequestEdit, CoalescingTask.AfterStop;
      progressEdits.Stop();
      RequestEdit(env);
      stand := Finalizing(origin);
    }

    // ---- handlers

    method HandleIntermediateOutput(env: Env, out: Output)
      modifies this, progressEdits
      ensures View() == HandleIntermediate(options, old(View()), env, out)
    {
      hide TurnHandover.NewHeading, Buffer;
      if out.text == "" {
        return;
      }
      if progressMessageId.Some? {
        pendingProgressText := "";
        NewHeading(env, out.text);
      } else {
        BufferProgress(env, out.text, false);
      }
    }

    method HandleToolActivityOutput(env: Env, out: Output)
      modifies this, progressEdits
      ensures View() == HandleTool(options, old(View()), env, out)
    {
      hide Ensure, CoalescingTask.AfterStart;
      if !out.subagent && out.text != "" {
        StartTicker();
      }
      EnsureProgressMessageExists(env, AfterEnsure(out.subagent, false, false));
    }

    method HandleProgressOutput(env: Env, out: Output)
      modifies this, progressEdits
      ensures View() == HandleProgress(options, old(View()), env, out)
    {
      hide TurnHandover.NewHeading, Buffer, Ensure;
      if out.subagent {
        if latestProgressText == "" {
          latestProgressText := DEFAULT_HEADING;
        }
        EnsureProgressMessageExists(env, AfterEnsure(true, true, out.error));
        return;
      }
      if out.text != "" {
        if progressMessageId.Some? {
          NewHeading(env, out.text);
        } else {
          BufferProgress(env, out.text, out.error);
          return;
        }
      }
      hadError := hadError || out.error;
    }

    method HandleFinalOutput(env: Env, out: Output)
      modifies this, progressEdits
      ensures View() == HandleFinal(options, old(View()), env, out)
    {
      hide Finalize, TurnHandover.EndOutput;
      if out.text != "" {
        stand := PublishStart(Publication(out.text, out.attached, true, FromOutput(out.error)));
      } else if out.raw {
        FinalizeProgressMessage(env, FromOutput(out.error));
      } else {
        EndOutput(out.error);
      }
    }

    method HandleOutput(env: Env, out: Output)
      requires Valid() && Enabled(View(), OutputArrives(out))
      modifies this, progressEdits
      ensures View() == Step(options, old(View()), env, OutputArrives(out))
      ensures Valid() && Grew(old(View()), View())
    {
      hide Inv, Grew, TurnHandover.HandleOutput;
      StepInv(options, View(), env, OutputArrives(out));
      DispatchOutput(env, out);
    }

    /** What reaches the controller after the final answer is discarded. */
    method DispatchOutput(env: Env, out: Output)
      modifies this, progressEdits
      ensures View() == TurnHandover.HandleOutput(options, old(View()), env, out)
    {
      hide HandleIntermediate, HandleTool, HandleProgress, HandleFinal;
      if visiblePhase == Final {
        return;
      }
      hadError := hadError || out.poisoned;
      match out.kind
      case Intermediate => HandleIntermediateOutput(env, out);
      case ToolActivity => HandleToolActivityOutput(env, out);
      case ProgressText => HandleProgressOutput(env, out);
      case FinalText => HandleFinalOutput(env, out);
    }

    method Finish(env: Env, success: bool)
      requires Valid() && Enabled(View(), FinishCalled(success))
      modifies this, progressEdits
      ensures View() == Step(options, old(View()), env, FinishCalled(success))
      ensures Valid() && Grew(old(View()), View())
    {
      hide Inv, Grew, Finished;
      StepInv(options, View(), env, FinishCalled(success));
      if typingActive {
        stand := FinishTyping(success);
      } else {
        FinishQuietly(env, success);
      }
    }

    /** The typing indicator is off. */
    method FinishQuietly(env: Env, success: bool)
      modifies this, progressEdits
      ensures View() == Finished(options, old(View()), env, success)
    {
      hide ResetProgress, TurnHandover.EndFinish, Finalize;
      hadError := hadError || !success;
      if success && visiblePhase == Progress && !hadError && latestProgressTextForFinal != "" {
        if env.humanClose {
          ResetProgressState();
          EndFinish();
        } else if !options.paired && options.allowReplay {
          stand := PublishStart(Publication(latestProgressTextForFinal, false, false, FromFinish));
        } else {
          FinalizeProgressMessage(env, FromFinish);
        }
      } else if visiblePhase != Final && hadError && (visiblePhase == Progress || options.failWhenSilent) {
        stand := PublishStart(Publication(options.failureText, false, false, FromFinish));
      } else {
        EndFinish();
      }
    }

    // ---- what the event loop calls

    method OnTick(env: Env)
      requires Valid() && Enabled(View(), Tick)
      modifies this, progressEdits
      ensures View() == Step(options, old(View()), env, Tick)
      ensures Valid() && Grew(old(View()), View())
    {
      hide Inv, Grew, TurnHandover.RequestEdit;
      StepInv(options, View(), env, Tick);
      RequestEdit(env);
    }

    method OnEditDone(env: Env, ok: bool)
      requires Valid() && Enabled(View(), EditDone(ok))
      modifies this, progressEdits
      ensures View() == Step(options, old(View()), env, EditDone(ok))
      ensures Valid() && Grew(old(View()), View())
    {
      hide Inv, Grew, TurnHandover.EditAnswered;
      StepInv(options, View(), env, EditDone(ok));
      EditAnswered(ok);
    }

    method OnDrainLoops(env: Env)
      requires Valid() && Enabled(View(), DrainLoops)
      modifies this, progressEdits
      ensures View() == Step(options, old(View()), env, DrainLoops)
      ensures Valid() && Grew(old(View()), View())
    {
      hide Inv, Grew, Sync, CoalescingTask.AfterRun;
      StepInv(options, View(), env, DrainLoops);
      var runs := progressEdits.Drain();
      if runs {
        SyncTrackedProgressMessageOnce(env);
      }
    }

    /** Whoever awaits the drain gets its error. */
    method OnTaskThrows(env: Env)
      requires Valid() && Enabled(View(), TaskThrows)
      modifies this, progressEdits
      ensures View() == Step(options, old(View()), env, TaskThrows)
      ensures Valid() && Grew(old(View()), View())
    {
      hide Inv, Grew, CoalescingTask.AfterThrow, TurnHandover.SendFailed;
      StepInv(options, View(), env, TaskThrows);
      progressEdits.Fail();
      match stand
      case SendEdit(a) => SendFailed(a);
      case PublishIdle(_) => stand := Ready;
      case Finalizing(_) => stand := Ready;
      case _ =>
    }

    method OnResume(env: Env)
      requires Valid() && Enabled(View(), Resumes)
      modifies this, progressEdits
      ensures View() == Step(options, old(View()), env, Resumes)
      ensures Valid() && Grew(old(View()), View())
    {
      hide Inv, Grew, Publishing, CoalescingTask.AfterCancel, HandOver, TurnHandover.Sent, ResetProgress,
           TurnHandover.AfterPublish;
      StepInv(options, View(), env, Resumes);
      match stand
      case PublishStart(p) => PublishTerminalText(env, p);
      case PublishFlushed(p) =>
        progressEdits.CancelPending();
        stand := PublishIdle(p);
      case PublishIdle(p) => HandOverProgress(p);
      case SendEdit(a) =>
        visiblePhase := Progress;
        Sent(env, a);
      case Finalizing(origin) =>
        AfterFinalEdit(origin);
    }

    /** The last edit of the progress message is done. */
    method AfterFinalEdit(origin: Origin)
      modifies this, progressEdits
      ensures View() == TurnHandover.AfterPublish(ResetProgress(old(View())).(forFinal := ""), origin)
    {
      hide ResetProgress, TurnHandover.AfterPublish;
      ResetProgressState();
      latestProgressTextForFinal := "";
      AfterPublish(origin);
    }

    method OnTypingDone(env: Env, ok: bool)
      requires Valid() && Enabled(View(), TypingDone(ok))
      modifies this, progressEdits
      ensures View() == Step(options, old(View()), env, TypingDone(ok))
      ensures Valid() && Grew(old(View()), View())
    {
      hide Inv, Grew, OnTyping;
      StepInv(options, View(), env, TypingDone(ok));
      ContinueAfterTyping(env, ok);
    }

    method ContinueAfterTyping(env: Env, ok: bool)
      requires Enabled(View(), TypingDone(ok))
      modifies this, progressEdits
      ensures View() == OnTyping(options, old(View()), env, ok)
    {
      hide TurnHandover.SendNow, TurnHandover.SendFailed, Deliver, Finished;
      match stand
      case SendTyping(text, replay, a) =>
        if ok {
          typingActive := true;
          SendNow(env, text, replay, a);
        } else {
          SendFailed(a);
        }
      case DeliverTyping(p, replace) =>
        if ok {
          typingActive := true;
          DeliverFinalText(env, p, replace);
        } else {
          stand := Ready;
        }
      case OutputTyping(error) =>
        stand := Ready;
        if ok {
          typingActive := false;
          hadError := hadError || error;
        }
      case FinishTyping(success) =>
        if ok {
          typingActive := false;
          FinishQuietly(env, success);
        } else {
          stand := Ready;
        }
    }

    method OnCreateDone(env: Env, id: Option<Id>)
      requires Valid() && Enabled(View(), CreateDone(id))
      modifies this, progressEdits
      ensures View() == Step(options, old(View()), env, CreateDone(id))
      ensures Valid() && Grew(old(View()), View())
    {
      hide Inv, Grew, Created;
      StepInv(options, View(), env, CreateDone(id));
      ProgressMessageCreated(env, id);
    }

    method OnPlainDone(env: Env, ok: bool)
      requires Valid() && Enabled(View(), PlainDone(ok))
      modifies this, progressEdits
      ensures View() == Step(options, old(View()), env, PlainDone(ok))
      ensures Valid() && Grew(old(View()), View())
    {
      hide Inv, Grew, TurnHandover.Sent, TurnHandover.SendFailed;
      StepInv(options, View(), env, PlainDone(ok));
      if ok {
        visiblePhase := Progress;
        Sent(env, stand.after);
      } else {
        SendFailed(stand.after);
      }
    }

    method OnDeliverDone(env: Env, ok: bool)
      requires Valid() && Enabled(View(), DeliverDone(ok))
      modifies this, progressEdits
      ensures View() == Step(options, old(View()), env, DeliverDone(ok))
      ensures Valid() && Grew(old(View()), View())
    {
      hide Inv, Grew, TurnHandover.AfterPublish;
      StepInv(options, View(), env, DeliverDone(ok));
      if ok {
        latestProgressTextForFinal := "";
        AfterPublish(stand.origin);
      } else {
        stand := Ready;
      }
    }
  }
}
