/** What a group's record notes of the direct terminal deliveries of its current message run, beside the
    memory of recent runs: the two answers it gives, and when a run that is started on top of another one
    inherits the notes of that one. Absent roles and texts are empty strings, which the program treats
    alike. */
module DeliveryRecord {
  import opened Basics
  import opened DeliveryMemory

  /** log is history: everything ever recorded. */
  datatype RunNotes = RunNotes(
    currentRunId: Option<RunKey>, runningMessages: bool, direct: map<Role, Text>, recent: Memory,
    log: seq<Record>)

  const EMPTY_NOTES := RunNotes(None, false, map[], [], [])

  // ---- steps

  /** Closes: the phase of a message run is left, by a close request or for a task on top. */
  datatype Event = Starts(run: RunKey) | Closes | Ends | Delivers(role: Role, text: Text)

  /** Only a running message run with a role and a text is noted. */
  predicate Noted(s: RunNotes, role: Role, text: Text) {
    s.runningMessages && s.currentRunId.Some? && s.currentRunId.value != "" && role != "" && text != ""
  }

  function NoteText(s: RunNotes, role: Role, text: Text): RunNotes {
    if Noted(s, role, text) then
      var r := Record(s.currentRunId.value, role, text);
      s.(direct := s.direct[role := text], recent := Note(s.recent, r), log := s.log + [r])
    else s
  }

  /** A message run starts, also on top of another one; the notes stay. */
  function Started(s: RunNotes, run: RunKey): RunNotes {
    s.(currentRunId := Some(run), runningMessages := true)
  }

  function Step(s: RunNotes, e: Event): RunNotes {
    match e
    case Starts(run) => Started(s, run)
    case Closes => s.(runningMessages := false)
    case Ends => s.(currentRunId := None, runningMessages := false, direct := map[])
    case Delivers(role, text) => NoteText(s, role, text)
  }

  /** Run ids are new to the memory when their run starts. */
  predicate Enabled(s: RunNotes, e: Event) {
    e.Starts? ==> e.run !in Keys(s.recent)
  }

  predicate Runs(s: RunNotes, es: seq<Event>)
    decreases |es|
  {
    es == [] || (Enabled(s, es[0]) && Runs(Step(s, es[0]), es[1..]))
  }

  function Exec(s: RunNotes, es: seq<Event>): RunNotes
    requires Runs(s, es)
    decreases |es|
  {
    if es == [] then s else Exec(Step(s, es[0]), es[1..])
  }

  // ---- answers

  /** Whether the current run has delivered directly for the role. */
  predicate HasDirect(s: RunNotes, run: RunKey, role: Role) {
    s.currentRunId == Some(run) && role != "" && role in s.direct
  }

  /** The same for any run the memory knows, with a shortcut for the current one. */
  predicate HasRecorded(s: RunNotes, run: RunKey, role: Role) {
    role != "" && (HasDirect(s, run, role) || role in Entry(s.recent, run))
  }

  predicate Remembered(s: RunNotes, run: RunKey, role: Role) {
    role != "" && role in Entry(s.recent, run)
  }

  // ---- the invariant

  ghost predicate Inv(s: RunNotes) {
    && NamedRuns(s.log) && s.recent == NoteAll(s.log)
    && (s.runningMessages ==> s.currentRunId.Some?)
    && (forall role :: role in s.direct ==> role != "" && WasNoted(s, role))
  }

  /** What is noted for a role was recorded, for the current run or for one before it. */
  ghost predicate WasNoted(s: RunNotes, role: Role)
    requires role in s.direct
  {
    exists run :: Record(run, role, s.direct[role]) in s.log
  }

  /** What is noted is what the memory has for the current run. */
  predicate Agrees(s: RunNotes) {
    s.currentRunId.Some? ==>
      forall role :: role in s.direct ==>
        role in Entry(s.recent, s.currentRunId.value) && Entry(s.recent, s.currentRunId.value)[role] == s.direct[role]
  }

  lemma NoteTextInv(s: RunNotes, role: Role, text: Text)
    requires Inv(s)
    ensures Inv(NoteText(s, role, text))
  {
    hide NoteAll, Note;
    var t := NoteText(s, role, text);
    if Noted(s, role, text) {
      var r := Record(s.currentRunId.value, role, text);
      NewestEntry(s.log, r);
      assert r in t.log;
      forall other | other in t.direct ensures other != "" && WasNoted(t, other) {
        if other != role {
          var run :| Record(run, other, s.direct[other]) in s.log;
          assert Record(run, other, t.direct[other]) in t.log;
        }
      }
    }
  }

  lemma StepInv(s: RunNotes, e: Event)
    requires Inv(s)
    ensures Inv(Step(s, e))
  {
    hide NoteText, NoteAll;
    match e
    case Delivers(role, text) => NoteTextInv(s, role, text);
    case Starts(run) =>
      forall role | role in s.direct ensures WasNoted(Started(s, run), role) {
        var of :| Record(of, role, s.direct[role]) in s.log;
      }
    case Closes =>
      forall role | role in s.direct ensures WasNoted(s.(runningMessages := false), role) {
        var of :| Record(of, role, s.direct[role]) in s.log;
      }
    case Ends =>
  }

  // ---- when notes and memory agree

  /** After a note the memory has it as the newest of its run. */
  lemma NoteTextAgrees(s: RunNotes, role: Role, text: Text)
    requires Inv(s) && Agrees(s)
    ensures Agrees(NoteText(s, role, text))
  {
    hide NoteAll, Note;
    if Noted(s, role, text) {
      var r := Record(s.currentRunId.value, role, text);
      NewestEntry(s.log, r);
      KeysDistinct(s.log + [r]);
      LastIsEntry(NoteAll(s.log + [r]));
    }
  }

  /** Of a run that is new to the memory the notes agree with it exactly when there are none. */
  lemma StartAgrees(s: RunNotes, run: RunKey)
    requires Inv(s) && run !in Keys(s.recent)
    ensures Agrees(Started(s, run)) <==> s.direct == map[]
    ensures (forall role :: HasRecorded(Started(s, run), run, role) == Remembered(s, run, role))
            <==> s.direct == map[]
    ensures forall role :: role in s.direct ==> HasDirect(Started(s, run), run, role)
  {
    hide NoteAll;
    NoEntry(s.recent, run);
    if s.direct != map[] {
      var role :| role in s.direct;
      assert HasRecorded(Started(s, run), run, role) && !Remembered(s, run, role);
    }
  }

  /** The notes cease to agree with the memory at the start of a run over notes, and only there. */
  lemma StepAgrees(s: RunNotes, e: Event)
    requires Inv(s) && Agrees(s) && Enabled(s, e)
    ensures Agrees(Step(s, e)) <==> !(e.Starts? && s.direct != map[])
  {
    hide NoteText, NoteAll, Inv;
    match e
    case Starts(run) => StartAgrees(s, run);
    case Delivers(role, text) => NoteTextAgrees(s, role, text);
    case Closes =>
    case Ends =>
  }

  /** After every step of the history the notes agree with the memory. */
  predicate AlwaysAgrees(s: RunNotes, es: seq<Event>)
    requires Runs(s, es)
    decreases |es|
  {
    Agrees(s) && (es == [] || AlwaysAgrees(Step(s, es[0]), es[1..]))
  }

  /** No run is started while something is noted. */
  predicate NeverStartsOverNotes(s: RunNotes, es: seq<Event>)
    requires Runs(s, es)
    decreases |es|
  {
    es == []
    || (!(es[0].Starts? && s.direct != map[]) && NeverStartsOverNotes(Step(s, es[0]), es[1..]))
  }

  lemma {:induction false} AgreesFrom(s: RunNotes, es: seq<Event>)
    requires Inv(s) && Agrees(s) && Runs(s, es)
    ensures AlwaysAgrees(s, es) <==> NeverStartsOverNotes(s, es)
    decreases |es|
  {
    hide Inv, Agrees, Step, Enabled;
    if es != [] {
      StepInv(s, es[0]);
      StepAgrees(s, es[0]);
      var t := Step(s, es[0]);
      if Agrees(t) {
        AgreesFrom(t, es[1..]);
      }
    }
  }

  lemma {:induction false} ReachableInv(s: RunNotes, es: seq<Event>)
    requires Inv(s) && Runs(s, es)
    ensures Inv(Exec(s, es))
    decreases |es|
  {
    hide Inv, Step, Enabled;
    if es != [] {
      StepInv(s, es[0]);
      ReachableInv(Step(s, es[0]), es[1..]);
    }
  }

  /** Over all histories: the notes agree with the memory throughout exactly when no run is started on top
      of one that has noted something. */
  lemma AgreesExactlyWithoutOverlap(es: seq<Event>)
    requires Runs(EMPTY_NOTES, es)
    ensures AlwaysAgrees(EMPTY_NOTES, es) <==> NeverStartsOverNotes(EMPTY_NOTES, es)
  {
    AgreesFrom(EMPTY_NOTES, es);
  }

  /** While they agree, both answers are those of the memory, for every run and role, and what is noted is
      the latest text of the log. */
  lemma AnswersAreRemembered(s: RunNotes, run: RunKey, role: Role)
    requires Inv(s) && Agrees(s)
    ensures HasRecorded(s, run, role) == Remembered(s, run, role)
    ensures HasDirect(s, run, role) ==>
              && Remembered(s, run, role)
              && (exists r :: r in s.log && r.run == run && r.role == role)
              && s.direct[role] == Latest(s.log, run, role)
  {
    hide NoteAll;
    if HasDirect(s, run, role) {
      KeepsLatestTexts(s.log, run, role);
    }
  }

  /** One run notes a text; a second is started on top of it, and both answers say that it has delivered. */
  lemma NotesInherited(first: RunKey, second: RunKey, role: Role, text: Text)
    requires first != "" && first != second && role != "" && text != ""
    ensures var es := [Starts(first), Delivers(role, text), Starts(second)];
            && Runs(EMPTY_NOTES, es)
            && var s := Exec(EMPTY_NOTES, es);
               && HasDirect(s, second, role) && HasRecorded(s, second, role) && !Remembered(s, second, role)
               && s.log == [Record(first, role, text)]
  {
    var s1 := Started(EMPTY_NOTES, first);
    var s2 := NoteText(s1, role, text);
    assert s2.recent == [(first, map[role := text])] by { FirstNote(first, role, text); }
    assert Keys(s2.recent) == [first];
    NoEntry(s2.recent, second);
    var s3 := Started(s2, second);
    var es := [Starts(first), Delivers(role, text), Starts(second)];
    assert es[1..] == [Delivers(role, text), Starts(second)] && es[1..][1..] == [Starts(second)]
        && es[1..][1..][1..] == [];
    assert Step(EMPTY_NOTES, es[0]) == s1 && Step(s1, es[1]) == s2 && Step(s2, es[2]) == s3;
    assert Runs(s3, []) && Exec(s3, []) == s3;
    assert Runs(s2, [Starts(second)]) && Exec(s2, [Starts(second)]) == s3;
    assert Runs(s1, es[1..]) && Exec(s1, es[1..]) == s3;
  }

  lemma FirstNote(run: RunKey, role: Role, text: Text)
    ensures Note([], Record(run, role, text)) == [(run, map[role := text])]
  {
    assert Delete([], run) == [] && Entry([], run) == map[];
  }

  // ---- from the events alone

  /** The latest start of a run that no end has come after. */
  function RunOf(es: seq<Event>): Option<RunKey>
    decreases |es|
  {
    if es == [] then None
    else
      match es[|es| - 1]
      case Starts(run) => Some(run)
      case Ends => None
      case _ => RunOf(es[..|es| - 1])
  }

  /** The latest of the starts, closings and ends is a start. */
  predicate Running(es: seq<Event>)
    decreases |es|
  {
    if es == [] then false
    else
      match es[|es| - 1]
      case Starts(_) => true
      case Delivers(_, _) => Running(es[..|es| - 1])
      case _ => false
  }

  /** A delivery after these events is to be recorded. */
  predicate Accepts(es: seq<Event>, role: Role, text: Text) {
    Running(es) && RunOf(es) != Some("") && role != "" && text != ""
  }

  /** The last text accepted for the role since the latest end of a run. */
  function LastText(es: seq<Event>, role: Role): Option<Text>
    decreases |es|
  {
    if es == [] then None
    else
      var before := es[..|es| - 1];
      match es[|es| - 1]
      case Ends => None
      case Delivers(r, text) => if r == role && Accepts(before, r, text) then Some(text) else LastText(before, role)
      case _ => LastText(before, role)
  }

  /** Everything accepted, in order, with the run it was accepted for. */
  function Accepted(es: seq<Event>): seq<Record>
    decreases |es|
  {
    if es == [] then []
    else
      var before := es[..|es| - 1];
      match es[|es| - 1]
      case Delivers(role, text) =>
        Accepted(before)
        + (if Accepts(before, role, text) && RunOf(before).Some? then [Record(RunOf(before).value, role, text)] else [])
      case _ => Accepted(before)
  }

  lemma {:induction false} ExecLast(s: RunNotes, es: seq<Event>)
    requires Runs(s, es) && es != []
    ensures Runs(s, es[..|es| - 1]) && Enabled(Exec(s, es[..|es| - 1]), es[|es| - 1])
    ensures Exec(s, es) == Step(Exec(s, es[..|es| - 1]), es[|es| - 1])
    decreases |es|
  {
    hide Step, Enabled;
    var before := es[..|es| - 1];
    if |es| > 1 {
      ExecLast(Step(s, es[0]), es[1..]);
      assert es[1..][..|es| - 2] == before[1..];
    } else {
      assert es[1..] == [] && before == [];
    }
  }

  /** Over all histories: what is noted for a role is exactly the last text accepted for it since the latest end
      of a run, and what is recorded is exactly what was accepted. */
  lemma {:induction false} NotesFromHistory(es: seq<Event>)
    requires Runs(EMPTY_NOTES, es)
    ensures var s := Exec(EMPTY_NOTES, es);
            && s.currentRunId == RunOf(es) && s.runningMessages == Running(es)
            && (forall role :: (role in s.direct <==> LastText(es, role).Some?)
                               && (role in s.direct ==> s.direct[role] == LastText(es, role).value))
            && s.log == Accepted(es) && s.recent == NoteAll(Accepted(es))
            && (Running(es) ==> RunOf(es).Some?)
    decreases |es|
  {
    hide NoteAll, Note;
    if es != [] {
      var before, e := es[..|es| - 1], es[|es| - 1];
      ExecLast(EMPTY_NOTES, es);
      NotesFromHistory(before);
      if e.Delivers? {
        var s := Exec(EMPTY_NOTES, before);
        assert Noted(s, e.role, e.text) <==> Accepts(before, e.role, e.text);
        NoteAllLast(s.log, Record(if s.currentRunId.Some? then s.currentRunId.value else "", e.role, e.text));
      }
      hide Exec;
    } else {
      assert NoteAll([]) == [] by { NothingNoted(); }
    }
  }

  lemma NothingNoted()
    ensures NoteAll([]) == []
  {
  }

  lemma NoteAllLast(log: seq<Record>, r: Record)
    ensures NoteAll(log + [r]) == Note(NoteAll(log), r)
  {
    assert (log + [r])[..|log|] == log;
  }

  // ---- one group's record

  class RunRecord {
    var currentRunId: Option<RunKey>
    var runningMessages: bool
    var direct: map<Role, Text>
    var recent: Memory
    ghost var log: seq<Record>

    ghost function View(): RunNotes
      reads this
    {
      RunNotes(currentRunId, runningMessages, direct, recent, log)
    }

    /** The memory is that of the log, and what is noted has been recorded. */
    ghost predicate Valid()
      reads this
    {
      Inv(View())
    }

    constructor ()
      ensures Valid() && View() == EMPTY_NOTES
    {
      currentRunId, runningMessages, direct, recent, log := None, false, map[], [], [];
    }

    /** A message run starts, whether or not another one is still running. */
    method RunStarts(run: RunKey)
      requires Valid()
      modifies this`currentRunId, this`runningMessages
      ensures Valid() && View() == Step(old(View()), Starts(run))
      ensures run !in Keys(recent) ==> (Agrees(View()) <==> direct == map[])
    {
      hide Inv, Agrees;
      StepInv(View(), Starts(run));
      if run !in Keys(recent) {
        StartAgrees(View(), run);
      }
      currentRunId, runningMessages := Some(run), true;
    }

    method CloseRequested()
      requires Valid()
      modifies this`runningMessages
      ensures Valid() && View() == Step(old(View()), Closes) && Agrees(View()) == old(Agrees(View()))
    {
      hide Inv;
      StepInv(View(), Closes);
      runningMessages := false;
    }

    /** The end of a run forgets what was noted, whichever run it was noted for. */
    method RunEnds()
      requires Valid()
      modifies this`currentRunId, this`runningMessages, this`direct
      ensures Valid() && View() == Step(old(View()), Ends) && Agrees(View())
    {
      hide Inv;
      StepInv(View(), Ends);
      currentRunId, runningMessages, direct := None, false, map[];
    }

    /** Moves the run to the end of the memory with its new text and evicts the oldest. */
    method RecordRecent(run: RunKey, role: Role, text: Text)
      modifies this`recent
      ensures recent == Note(old(recent), Record(run, role, text))
    {
      var existing := Entry(recent, run)[role := text];
      recent := Delete(recent, run) + [(run, existing)];
      while |recent| > MAX_RUNS
        invariant Evict(recent) == Note(old(recent), Record(run, role, text))
        decreases |recent|
      {
        if recent[0].0 == "" { break; }
        recent := recent[1..];
      }
    }

    /** Only a running message run with a role and a text is noted. */
    method NoteDirectTerminalDelivery(role: Role, text: Text)
      requires Valid()
      modifies this`direct, this`recent, this`log
      ensures Valid() && View() == Step(old(View()), Delivers(role, text)) && |recent| <= MAX_RUNS
      ensures old(Agrees(View())) ==> Agrees(View())
    {
      hide Inv, Agrees, NoteAll, Note;
      StepInv(View(), Delivers(role, text));
      if Agrees(View()) {
        NoteTextAgrees(View(), role, text);
      }
      MemoryIsBounded(Step(View(), Delivers(role, text)));
      if !runningMessages || currentRunId.None? || currentRunId.value == "" || role == "" || text == "" { return; }
      var r := Record(currentRunId.value, role, text);
      direct := direct[role := text];
      RecordRecent(r.run, role, text);
      log := log + [r];
    }

    /** While the notes agree with the memory, a text noted for the run is the latest of the log for it. */
    method HasDirectTerminalDeliveryForRun(run: RunKey, role: Role) returns (has: bool)
      requires Valid()
      ensures has == HasDirect(View(), run, role)
      ensures Agrees(View()) && has ==> Remembered(View(), run, role) && direct[role] == Entry(recent, run)[role]
    {
      if currentRunId != Some(run) || role == "" { return false; }
      has := role in direct;
    }

    /** While the notes agree with the memory, the answer is that of the memory, also where the shortcut for
        the current run gives it. */
    method HasRecordedDirectTerminalDeliveryForRun(run: RunKey, role: Role) returns (has: bool)
      requires Valid()
      ensures has == HasRecorded(View(), run, role)
      ensures Agrees(View()) ==> has == Remembered(View(), run, role)
    {
      if role == "" { return false; }
      if currentRunId == Some(run) && role in direct { return true; }
      has := role in Entry(recent, run);
    }
  }

  lemma MemoryIsBounded(s: RunNotes)
    requires Inv(s)
    ensures |s.recent| <= MAX_RUNS
  {
    hide NoteAll;
    NeverAboveTheLimit(s.log);
  }
}
