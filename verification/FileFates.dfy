/** The fate of every file, told by the operations on it alone: where it is, how far its handling has come, and
    exactly when it is deleted or put with the errors. */
module FileFates {
  import opened Basics
  import opened FileClaims
  import opened ClaimSafety

  datatype Place = Nowhere | Inbox | Processing | Errors | Deleted | Withdrawn

  /** stage: how far the watcher is with the file, while it works on it. */
  datatype Fate = Fate(place: Place, stage: Option<Stage>, invoked: bool, returned: bool)

  const NEVER := Fate(Nowhere, None, false, false)

  /** The file that an operation is about. */
  function Subject(w: World, e: Event): Option<File>
    requires Enabled(w, e)
  {
    match e
    case Arrives(f) => Some(f)
    case Vanishes(f) => Some(f)
    case QuarantinesOne => Some(WorkOf(w).todo[0])
    case ClaimsOne => Some(WorkOf(w).todo[0])
    case FindsInvalid => Some(ClaimOf(w).value.file)
    case Invokes => Some(ClaimOf(w).value.file)
    case Returns(_) => Some(ClaimOf(w).value.file)
    case Unlinks(_) => Some(ClaimOf(w).value.file)
    case MovesToErrors => Some(ClaimOf(w).value.file)
    case _ => None
  }

  /** What an operation on the file means for it. A claim takes only what is still in the inbox; a file that cannot be
      read, whose handler throws, or that cannot be deleted is to go to the errors. */
  function On(t: Fate, e: Event): Fate {
    match e
    case Arrives(_) => t.(place := Inbox)
    case Vanishes(_) => t.(place := Withdrawn)
    case QuarantinesOne => t.(place := Errors)
    case ClaimsOne => if t.place == Inbox then t.(place := Processing, stage := Some(Claimed)) else t
    case FindsInvalid => t.(stage := Some(Failed))
    case Invokes => t.(stage := Some(Invoked), invoked := true)
    case Returns(ok) => if ok then t.(stage := Some(Returned), returned := true) else t.(stage := Some(Failed))
    case Unlinks(ok) => if ok then t.(place := Deleted, stage := None) else t.(stage := Some(Failed))
    case MovesToErrors => t.(place := Errors, stage := None)
    case _ => t
  }

  /** Other operations leave the file alone, but a crash ends the work on it. */
  function After(w: World, t: Fate, e: Event, f: File): Fate
    requires Enabled(w, e)
  {
    if Subject(w, e) == Some(f) then On(t, e) else if e.Crashes? then t.(stage := None) else t
  }

  ghost function FateOf(w: World, es: seq<Event>, f: File, t: Fate): Fate
    requires Runs(w, es)
    decreases |es|
  {
    if es == [] then t else FateOf(Step(w, es[0]), es[1..], f, After(w, t, es[0], f))
  }

  // ---- what the world says

  function PlaceIn(w: World, f: File): Place {
    if f in w.inbox then Inbox
    else if f in w.processing then Processing
    else if f in w.errors then Errors
    else if f in w.deleted then Deleted
    else if f in w.withdrawn then Withdrawn
    else Nowhere
  }

  function StageIn(w: World, f: File): Option<Stage> {
    if IsClaimed(w, f) then Some(ClaimOf(w).value.stage) else None
  }

  function FateIn(w: World, f: File): Fate {
    Fate(PlaceIn(w, f), StageIn(w, f), f in w.handled, f in w.returned)
  }

  // ---- steps

  /** The operations that move files do so by removing and adding their own. */
  lemma MovesItsOwn(w: World, e: Event)
    requires Enabled(w, e)
    ensures var t, own := Step(w, e), if Subject(w, e).Some? then {Subject(w, e).value} else {};
            && w.inbox - own == t.inbox - own && w.processing - own == t.processing - own
            && w.errors - own == t.errors - own && w.deleted - own == t.deleted - own
            && w.withdrawn - own == t.withdrawn - own
  {
    hide IsListing, IsJson, NoDuplicates;
  }

  lemma OthersStay(w: World, e: Event, f: File)
    requires Enabled(w, e) && Subject(w, e) != Some(f)
    ensures PlaceIn(Step(w, e), f) == PlaceIn(w, f)
  {
    MovesItsOwn(w, e);
    hide Step, Enabled, Subject;
    var t, own := Step(w, e), if Subject(w, e).Some? then {Subject(w, e).value} else {};
    assert f !in own;
    assert f in w.inbox <==> f in w.inbox - own;
    assert f in w.processing <==> f in w.processing - own;
    assert f in w.errors <==> f in w.errors - own;
    assert f in w.deleted <==> f in w.deleted - own;
    assert f in w.withdrawn <==> f in w.withdrawn - own;
  }

  /** The file of an operation is where the operation finds it. */
  lemma SubjectMoves(w: World, e: Event, f: File)
    requires Partition(w) && ClaimInv(w) && WorkInv(w) && Enabled(w, e) && Subject(w, e) == Some(f)
    ensures PlaceIn(Step(w, e), f) == On(FateIn(w, f), e).place
  {
    hide StageIn, IsJson, NoDuplicates;
  }

  lemma StepPlaces(w: World, e: Event, f: File)
    requires Inv(w) && Enabled(w, e)
    ensures PlaceIn(Step(w, e), f) == After(w, FateIn(w, f), e, f).place
  {
    hide Step, Partition, ClaimInv, WorkInv, History, Leftovers, PlanInv, Enabled, Subject, PlaceIn, StageIn;
    if Subject(w, e) == Some(f) {
      SubjectMoves(w, e, f);
    } else {
      OthersStay(w, e, f);
    }
  }

  lemma StepStages(w: World, e: Event, f: File)
    requires Inv(w) && Enabled(w, e)
    ensures StageIn(Step(w, e), f) == After(w, FateIn(w, f), e, f).stage
  {
    hide History, Leftovers, PlanInv, IsJson, IsListing, NoDuplicates;
  }

  lemma StepHandling(w: World, e: Event, f: File)
    requires Inv(w) && Enabled(w, e)
    ensures var t, u := FateIn(Step(w, e), f), After(w, FateIn(w, f), e, f);
            t.invoked == u.invoked && t.returned == u.returned
  {
    hide Partition, History, Leftovers, PlanInv, WorkInv, IsJson, IsListing, NoDuplicates, PlaceIn, StageIn;
  }

  /** Every operation does to every file what it means for it. */
  lemma StepFates(w: World, e: Event, f: File)
    requires Inv(w) && Enabled(w, e)
    ensures FateIn(Step(w, e), f) == After(w, FateIn(w, f), e, f)
  {
    StepPlaces(w, e, f);
    StepStages(w, e, f);
    StepHandling(w, e, f);
    hide Inv, Step, Enabled, After, PlaceIn, StageIn;
  }

  lemma {:induction false} RunFates(w: World, es: seq<Event>, f: File)
    requires Inv(w) && Runs(w, es)
    ensures FateIn(Exec(w, es), f) == FateOf(w, es, f, FateIn(w, f))
    decreases |es|
  {
    hide Inv, Step, Enabled, After, FateIn;
    if es != [] {
      StepFates(w, es[0], f);
      StepInv(w, es[0]);
      RunFates(Step(w, es[0]), es[1..], f);
    }
  }

  /** Over all runs, with crashes anywhere, every file is where the operations on it have put it, and its handling has
      come as far as they say. */
  lemma FatesFromHistory(es: seq<Event>, f: File)
    requires Runs(START, es)
    ensures FateIn(Exec(START, es), f) == FateOf(START, es, f, NEVER)
  {
    assert FateIn(START, f) == NEVER;
    hide *;
    StartInv();
    RunFates(START, es, f);
  }

  // ---- where a file ends

  /** The operation ends the handling of the file with its deletion. */
  predicate Deletes(e: Event) {
    e == Unlinks(true)
  }

  /** The operation puts the file with the errors. */
  predicate Parks(e: Event) {
    e.QuarantinesOne? || e.MovesToErrors?
  }

  ghost predicate Happens(w: World, es: seq<Event>, f: File, p: Event -> bool)
    requires Runs(w, es)
    decreases |es|
  {
    es != [] && ((p(es[0]) && Subject(w, es[0]) == Some(f)) || Happens(Step(w, es[0]), es[1..], f, p))
  }

  lemma {:induction false} EndsWhere(w: World, es: seq<Event>, f: File)
    requires Inv(w) && Runs(w, es)
    ensures f in Exec(w, es).deleted <==> f in w.deleted || Happens(w, es, f, Deletes)
    ensures f in Exec(w, es).errors <==> f in w.errors || Happens(w, es, f, Parks)
    decreases |es|
  {
    hide Inv, Enabled, Step;
    if es != [] {
      StepEnds(w, es[0], f);
      StepInv(w, es[0]);
      EndsWhere(Step(w, es[0]), es[1..], f);
    }
  }

  lemma StepEnds(w: World, e: Event, f: File)
    requires Enabled(w, e)
    ensures var t := Step(w, e);
            && (f in t.deleted <==> f in w.deleted || (Deletes(e) && Subject(w, e) == Some(f)))
            && (f in t.errors <==> f in w.errors || (Parks(e) && Subject(w, e) == Some(f)))
  {
    hide IsListing;
  }

  /** Over all runs: a file is deleted if and only if the watcher deleted it after its handler had returned without an
      error, and in the errors if and only if it was quarantined or its claim was moved there. */
  lemma EndsExactly(es: seq<Event>, f: File)
    requires Runs(START, es)
    ensures var w := Exec(START, es);
            && (f in w.deleted <==> Happens(START, es, f, Deletes))
            && (f in w.errors <==> Happens(START, es, f, Parks))
            && (f in w.deleted ==> FateOf(START, es, f, NEVER).returned)
  {
    hide *;
    StartInv();
    EndsWhere(START, es, f);
    FatesFromHistory(es, f);
    NothingLost(es);
    Answers(Exec(START, es), f);
  }

  lemma Answers(w: World, f: File)
    ensures f in w.returned <==> FateIn(w, f).returned
    ensures f !in START.deleted && f !in START.errors
  {
  }

  // ---- what is left to do

  /** The jobs to come, the directory being worked on, and what is to do there. */
  datatype Agenda = Agenda(jobs: seq<Job>, dir: Option<Dir>, todo: seq<File>)

  function AgendaOf(w: World): Agenda {
    match w.watcher
    case Polling(jobs, Quarantining(dir, todo)) => Agenda(jobs, Some(dir), todo)
    case Polling(jobs, Serving(dir, _, todo, _)) => Agenda(jobs, Some(dir), todo)
    case Polling(jobs, Resting) => Agenda(jobs, None, [])
    case _ => Agenda([], None, [])
  }

  /** A poll is planned, its jobs are taken up one by one, each goes through its listing file by file, and only a claim
      that throws gives up the rest of a directory. */
  function AgendaAfter(w: World, e: Event): Agenda
    requires Enabled(w, e)
  {
    var a := AgendaOf(w);
    match e
    case StartsPoll(groups) => Agenda(Plan(groups), None, [])
    case Lists(files) => Agenda(a.jobs[1..], Some(a.jobs[0].dir), files)
    case QuarantinesOne => a.(todo := a.todo[1..])
    case ClaimsOne => a.(todo := a.todo[1..])
    case QuarantineDone => Agenda(a.jobs, None, [])
    case ServeDone => Agenda(a.jobs, None, [])
    case ClaimThrows => Agenda(a.jobs, None, [])
    case Crashes => Agenda([], None, [])
    case _ => a
  }

  /** Every operation moves the watcher on through its agenda; a directory counts as clean from the end of its
      quarantine to the next crash. */
  lemma StepAgenda(w: World, e: Event)
    requires Enabled(w, e)
    ensures AgendaOf(Step(w, e)) == AgendaAfter(w, e)
    ensures Step(w, e).clean
         == if e.Crashes? then {}
            else if e.QuarantineDone? then w.clean + {AgendaOf(w).dir.value}
            else w.clean
    ensures Step(w, e).watcher.Down? <==> e.Crashes? || (w.watcher.Down? && !e.Restarts?)
  {
    hide IsListing;
  }
}
