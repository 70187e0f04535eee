/** The claim protocol for incoming files: a file is claimed by a rename into the processing directory,
    handled, and deleted or moved to the error directory. Steps are single file operations, and the
    watching process can crash between any two of them. */
module FileClaims {
  import opened Basics

  /** The messages or the tasks directory of a group. */
  datatype Dir = Dir(group: string, tasks: bool)

  datatype File = File(dir: Dir, name: string)

  const JSON := ".json"

  predicate IsJson(f: File) {
    |f.name| >= |JSON| && f.name[|f.name| - |JSON|..] == JSON
  }

  // ---- the watcher

  datatype Job = Quarantine(dir: Dir) | Serve(dir: Dir)

  /** How far the claimed file is: taken, handler running, handler done, or to go to the errors. */
  datatype Stage = Claimed | Invoked | Returned | Failed

  datatype Claim = Claim(file: File, stage: Stage)

  datatype Work =
    | Resting
    | Quarantining(dir: Dir, todo: seq<File>)
    | Serving(dir: Dir, listed: seq<File>, todo: seq<File>, claim: Option<Claim>)

  datatype Watcher = Down | Between | Polling(jobs: seq<Job>, work: Work)

  /** arrived, deleted, withdrawn, handled and returned are history: the files ever seen, removed after
      handling, removed by others, given to a handler, and handled to the end. clean are the
      directories whose leftovers were quarantined since the last crash, planned those of the latest
      poll. */
  datatype World = World(
    inbox: set<File>, processing: set<File>, errors: set<File>,
    arrived: set<File>, deleted: set<File>, withdrawn: set<File>,
    handled: seq<File>, returned: set<File>,
    watcher: Watcher, clean: set<Dir>, planned: set<Dir>, crashed: bool)

  const START := World({}, {}, {}, {}, {}, {}, [], {}, Down, {}, {}, false)

  /** A poll first quarantines the leftovers of a group, then serves its messages and its tasks. */
  function Plan(groups: seq<string>): seq<Job> {
    if groups == [] then [] else GroupJobs(groups[0]) + Plan(groups[1..])
  }

  function GroupJobs(group: string): seq<Job> {
    var messages, tasks := Dir(group, false), Dir(group, true);
    [Quarantine(messages), Quarantine(tasks), Serve(messages), Serve(tasks)]
  }

  function Dirs(groups: seq<string>): set<Dir> {
    if groups == [] then {} else {Dir(groups[0], false), Dir(groups[0], true)} + Dirs(groups[1..])
  }

  // ---- steps

  datatype Event =
    | Arrives(file: File)
    | Vanishes(file: File)
    | Crashes
    | Restarts
    | StartsPoll(groups: seq<string>)
    | Lists(files: seq<File>)
    | QuarantinesOne
    | QuarantineDone
    | ClaimsOne
    | ClaimThrows
    | FindsInvalid
    | Invokes
    | Returns(ok: bool)
    | Unlinks(ok: bool)
    | MovesToErrors
    | ServeDone
    | PollDone

  function WorkOf(w: World): Work {
    if w.watcher.Polling? then w.watcher.work else Resting
  }

  function ClaimOf(w: World): Option<Claim> {
    var k := WorkOf(w);
    if k.Serving? then k.claim else None
  }

  /** A directory listing, in any order. */
  ghost predicate IsListing(files: seq<File>, from: set<File>, dir: Dir) {
    && NoDuplicates(files)
    && forall f :: f in files <==> f in from && f.dir == dir && IsJson(f)
  }

  predicate AtStage(w: World, stage: Stage) {
    ClaimOf(w).Some? && ClaimOf(w).value.stage == stage
  }

  /** No claim is being worked on; the next file of the listing is due. */
  predicate Choosing(w: World) {
    WorkOf(w).Serving? && WorkOf(w).claim.None?
  }

  ghost predicate Enabled(w: World, e: Event) {
    match e
    case Arrives(f) => f !in w.arrived
    case Vanishes(f) => f in w.inbox
    case Crashes => !w.watcher.Down?
    case Restarts => w.watcher.Down?
    case StartsPoll(_) => w.watcher.Between?
    case Lists(files) =>
      && w.watcher.Polling? && w.watcher.work.Resting? && w.watcher.jobs != []
      && var job := w.watcher.jobs[0];
      IsListing(files, if job.Quarantine? then w.processing else w.inbox, job.dir)
    case QuarantinesOne => WorkOf(w).Quarantining? && WorkOf(w).todo != []
    case QuarantineDone => WorkOf(w).Quarantining? && WorkOf(w).todo == []
    case ClaimsOne => Choosing(w) && WorkOf(w).todo != []
    case ClaimThrows => Choosing(w) && WorkOf(w).todo != []
    case FindsInvalid => AtStage(w, Claimed)
    case Invokes => AtStage(w, Claimed)
    case Returns(_) => AtStage(w, Invoked)
    case Unlinks(_) => AtStage(w, Returned)
    case MovesToErrors => AtStage(w, Failed)
    case ServeDone => Choosing(w) && WorkOf(w).todo == []
    case PollDone => w.watcher.Polling? && w.watcher.work.Resting? && w.watcher.jobs == []
  }

  function Working(w: World, work: Work): World
    requires w.watcher.Polling?
  {
    w.(watcher := w.watcher.(work := work))
  }

  function SetStage(w: World, stage: Stage): World
    requires ClaimOf(w).Some?
  {
    Working(w, w.watcher.work.(claim := Some(Claim(ClaimOf(w).value.file, stage))))
  }

  function DropClaim(w: World): World
    requires WorkOf(w).Serving?
  {
    Working(w, w.watcher.work.(claim := None))
  }

  function StartListing(w: World, files: seq<File>): World
    requires w.watcher.Polling? && w.watcher.jobs != []
  {
    var job := w.watcher.jobs[0];
    w.(watcher := Polling(w.watcher.jobs[1..],
         if job.Quarantine? then Quarantining(job.dir, files) else Serving(job.dir, files, files, None)))
  }

  function QuarantineOne(w: World): World
    requires WorkOf(w).Quarantining? && WorkOf(w).todo != []
  {
    var f := WorkOf(w).todo[0];
    Working(w, Quarantining(WorkOf(w).dir, WorkOf(w).todo[1..])).(
      processing := w.processing - {f}, errors := w.errors + {f})
  }

  /** A rename into the processing directory; a file that is gone is skipped. */
  function ClaimOne(w: World): World
    requires Choosing(w) && WorkOf(w).todo != []
  {
    var f := WorkOf(w).todo[0];
    var k := WorkOf(w);
    if f in w.inbox then
      Working(w, Serving(k.dir, k.listed, k.todo[1..], Some(Claim(f, Claimed)))).(
        inbox := w.inbox - {f}, processing := w.processing + {f})
    else Working(w, Serving(k.dir, k.listed, k.todo[1..], None))
  }

  function UnlinkClaim(w: World): World
    requires ClaimOf(w).Some?
  {
    var f := ClaimOf(w).value.file;
    DropClaim(w).(processing := w.processing - {f}, deleted := w.deleted + {f})
  }

  function MoveClaimToErrors(w: World): World
    requires ClaimOf(w).Some?
  {
    var f := ClaimOf(w).value.file;
    DropClaim(w).(processing := w.processing - {f}, errors := w.errors + {f})
  }

  function Invoke(w: World): World
    requires ClaimOf(w).Some?
  {
    SetStage(w, Invoked).(handled := w.handled + [ClaimOf(w).value.file])
  }

  function Return(w: World, ok: bool): World
    requires ClaimOf(w).Some?
  {
    if ok then SetStage(w, Returned).(returned := w.returned + {ClaimOf(w).value.file})
    else SetStage(w, Failed)
  }

  function Step(w: World, e: Event): World
    requires Enabled(w, e)
  {
    match e
    case Arrives(f) => w.(arrived := w.arrived + {f}, inbox := w.inbox + {f})
    case Vanishes(f) => w.(inbox := w.inbox - {f}, withdrawn := w.withdrawn + {f})
    case Crashes => w.(watcher := Down, clean := {}, planned := {}, crashed := true)
    case Restarts => w.(watcher := Between)
    case StartsPoll(groups) => w.(watcher := Polling(Plan(groups), Resting), planned := Dirs(groups))
    case Lists(files) => StartListing(w, files)
    case QuarantinesOne => QuarantineOne(w)
    case QuarantineDone => Working(w, Resting).(clean := w.clean + {WorkOf(w).dir})
    case ClaimsOne => ClaimOne(w)
    case ClaimThrows => Working(w, Resting)
    case FindsInvalid => SetStage(w, Failed)
    case Invokes => Invoke(w)
    case Returns(ok) => Return(w, ok)
    case Unlinks(ok) => if ok then UnlinkClaim(w) else SetStage(w, Failed)
    case MovesToErrors => MoveClaimToErrors(w)
    case ServeDone => Working(w, Resting)
    case PollDone => w.(watcher := Between)
  }

  ghost predicate Runs(w: World, es: seq<Event>)
    decreases |es|
  {
    es == [] || (Enabled(w, es[0]) && Runs(Step(w, es[0]), es[1..]))
  }

  ghost function Exec(w: World, es: seq<Event>): World
    requires Runs(w, es)
    decreases |es|
  {
    if es == [] then w else Exec(Step(w, es[0]), es[1..])
  }

  // ---- the invariant

  /** Every file that ever arrived is in exactly one place. */
  predicate Partition(w: World) {
    && w.arrived == w.inbox + w.processing + w.errors + w.deleted + w.withdrawn
    && w.inbox !! w.processing !! w.errors !! w.deleted !! w.withdrawn
  }

  ghost predicate History(w: World) {
    && NoDuplicates(w.handled)
    && (forall f :: f in w.handled ==> f in w.processing + w.errors + w.deleted)
    && (forall f :: f in w.returned ==> f in w.handled)
    && w.deleted <= w.returned
    && (forall f :: f in w.processing ==> IsJson(f))
  }

  predicate ClaimInv(w: World) {
    ClaimOf(w).Some? ==>
      var c := ClaimOf(w).value;
      && c.file in w.processing
      && (c.stage == Claimed ==> c.file !in w.handled)
      && (c.stage == Returned ==> c.file in w.returned)
      && (c.stage == Invoked ==> c.file in w.handled)
  }

  predicate IsClaimed(w: World, f: File) {
    ClaimOf(w).Some? && ClaimOf(w).value.file == f
  }

  /** A file in a processing directory is the one being worked on, unless a crash left it there and its
      directory has not been quarantined since. */
  ghost predicate Leftovers(w: World) {
    forall f :: f in w.processing && !IsClaimed(w, f) ==> w.crashed && f.dir !in w.clean
  }

  /** Each directory is quarantined before it is served. */
  predicate Ordered(jobs: seq<Job>, ready: set<Dir>) {
    jobs == []
    || (match jobs[0]
        case Quarantine(d) => Ordered(jobs[1..], ready + {d})
        case Serve(d) => d in ready && Ordered(jobs[1..], ready))
  }

  ghost predicate WorkInv(w: World) {
    match WorkOf(w)
    case Resting => true
    case Quarantining(dir, todo) =>
      && NoDuplicates(todo)
      && (forall f :: f in todo <==> f in w.processing && f.dir == dir)
    case Serving(dir, listed, todo, claim) =>
      && dir in w.clean
      && (forall f :: f in todo ==> f in listed)
      && (forall f :: f in listed ==> f in w.arrived && f.dir == dir && IsJson(f))
      && (forall f :: f in listed && f !in todo ==> f !in w.inbox)
  }

  function Ready(w: World): set<Dir> {
    w.clean + (if WorkOf(w).Quarantining? then {WorkOf(w).dir} else {})
  }

  ghost predicate PlanInv(w: World) {
    && (w.watcher.Polling? ==> Ordered(w.watcher.jobs, Ready(w)))
    && (forall d :: d in w.planned && d !in Ready(w) ==>
          w.watcher.Polling? && Quarantine(d) in w.watcher.jobs)
  }

  ghost predicate Inv(w: World) {
    Partition(w) && History(w) && ClaimInv(w) && Leftovers(w) && WorkInv(w) && PlanInv(w)
  }
}
