/** Each file is handled at most once and never lost, whatever arrives and whenever the watching process
    crashes. */
module ClaimSafety {
  import opened Basics
  import opened FileClaims

  // ---- one step

  lemma PartitionStep(w: World, e: Event)
    requires Inv(w) && Enabled(w, e)
    ensures Partition(Step(w, e))
  {
    hide History, Leftovers, PlanInv;
  }

  lemma HistoryStep(w: World, e: Event)
    requires Inv(w) && Enabled(w, e)
    ensures History(Step(w, e))
  {
    hide Leftovers, PlanInv, NoDuplicates, IsListing, IsJson;
    if e.Invokes? {
      DistinctSnoc(w.handled, ClaimOf(w).value.file);
    }
  }

  lemma ClaimStep(w: World, e: Event)
    requires Inv(w) && Enabled(w, e)
    ensures ClaimInv(Step(w, e))
  {
  }

  lemma LeftoversStep(w: World, e: Event)
    requires Inv(w) && Enabled(w, e)
    ensures Leftovers(Step(w, e))
  {
    hide Partition, History, PlanInv;
  }

  lemma WorkStep(w: World, e: Event)
    requires Inv(w) && Enabled(w, e)
    ensures WorkInv(Step(w, e))
  {
    hide Partition, History, Leftovers, PlanInv, IsListing, IsJson, StartListing, QuarantineOne, ClaimOne,
         NoDuplicates;
    match e
    case Lists(files) => ListsWork(w, files);
    case QuarantinesOne => QuarantineWork(w);
    case ClaimsOne => ClaimWork(w);
    case Arrives(f) => ArrivalWork(w, f);
    case _ =>
  }

  lemma ListsWork(w: World, files: seq<File>)
    requires Inv(w) && Enabled(w, Lists(files))
    ensures WorkInv(StartListing(w, files))
  {
    hide ClaimInv, Leftovers, NoDuplicates, IsJson;
  }

  lemma QuarantineWork(w: World)
    requires Inv(w) && Enabled(w, QuarantinesOne)
    ensures WorkInv(QuarantineOne(w))
  {
    hide Partition, History, ClaimInv, Leftovers, PlanInv, IsJson, NoDuplicates;
    DistinctTail(WorkOf(w).todo);
  }

  lemma ClaimWork(w: World)
    requires Inv(w) && Enabled(w, ClaimsOne)
    ensures WorkInv(ClaimOne(w))
  {
    hide History, ClaimInv, Leftovers, PlanInv, IsJson;
  }

  lemma ArrivalWork(w: World, f: File)
    requires Inv(w) && f !in w.arrived
    ensures WorkInv(Step(w, Arrives(f)))
  {
    hide History, ClaimInv, Leftovers, PlanInv, IsJson;
  }

  lemma {:induction false} PlanOrdered(groups: seq<string>, ready: set<Dir>)
    ensures Ordered(Plan(groups), ready)
    ensures forall d :: d in Dirs(groups) ==> Quarantine(d) in Plan(groups)
    decreases |groups|
  {
    if groups != [] {
      var a, b := Dir(groups[0], false), Dir(groups[0], true);
      var jobs, rest := Plan(groups), Plan(groups[1..]);
      PlanOrdered(groups[1..], ready + {a} + {b});
      var all := ready + {a} + {b};
      assert jobs[3..][1..] == rest && jobs[3..][0] == Serve(b) && Ordered(jobs[3..], all);
      assert jobs[2..][1..] == jobs[3..] && jobs[2..][0] == Serve(a) && Ordered(jobs[2..], all);
      assert jobs[1..][1..] == jobs[2..] && jobs[1..][0] == Quarantine(b);
      assert Ordered(jobs[1..], ready + {a});
      assert jobs[0] == Quarantine(a);
      assert jobs[1] == Quarantine(b);
    }
  }

  lemma {:induction false} OrderedMonotone(jobs: seq<Job>, a: set<Dir>, b: set<Dir>)
    requires Ordered(jobs, a) && a <= b
    ensures Ordered(jobs, b)
    decreases |jobs|
  {
    if jobs != [] {
      match jobs[0]
      case Quarantine(d) => OrderedMonotone(jobs[1..], a + {d}, b + {d});
      case Serve(d) => OrderedMonotone(jobs[1..], a, b);
    }
  }

  lemma PlanStep(w: World, e: Event)
    requires Inv(w) && Enabled(w, e)
    ensures PlanInv(Step(w, e))
  {
    hide Partition, History, ClaimInv, Leftovers, WorkInv, Ordered;
    assert e.Crashes? || e.StartsPoll? || e.Lists? || Ready(Step(w, e)) == Ready(w);
    match e
    case StartsPoll(groups) =>
      PlanOrdered(groups, w.clean);
      assert Ready(Step(w, e)) == w.clean;
    case Lists(files) => ListsPlan(w, files);
    case _ =>
  }

  lemma ListsPlan(w: World, files: seq<File>)
    requires PlanInv(w) && Enabled(w, Lists(files))
    ensures PlanInv(Step(w, Lists(files)))
  {
    var t := Step(w, Lists(files));
    var job := w.watcher.jobs[0];
    assert Ready(w) == w.clean;
    assert w.watcher.jobs[0] == job && Ordered(w.watcher.jobs, w.clean);
    assert Ready(t) == if job.Quarantine? then w.clean + {job.dir} else w.clean;
    forall d | d in t.planned && d !in Ready(t) ensures Quarantine(d) in t.watcher.jobs {
      assert Quarantine(d) in w.watcher.jobs && Quarantine(d) != job;
    }
  }

  lemma StepInv(w: World, e: Event)
    requires Inv(w) && Enabled(w, e)
    ensures Inv(Step(w, e))
  {
    PartitionStep(w, e);
    HistoryStep(w, e);
    ClaimStep(w, e);
    LeftoversStep(w, e);
    WorkStep(w, e);
    PlanStep(w, e);
    hide Partition, History, ClaimInv, Leftovers, WorkInv, PlanInv, Step, Enabled;
  }

  lemma StartInv()
    ensures Inv(START)
  {
  }

  lemma {:induction false} ReachableInv(w: World, es: seq<Event>)
    requires Inv(w) && Runs(w, es)
    ensures Inv(Exec(w, es))
    decreases |es|
  {
    hide Inv, Step, Enabled;
    if es != [] {
      StepInv(w, es[0]);
      ReachableInv(Step(w, es[0]), es[1..]);
    }
  }

  // ---- the guarantees

  lemma FromStart(es: seq<Event>)
    requires Runs(START, es)
    ensures Inv(Exec(START, es))
  {
    hide *;
    StartInv();
    ReachableInv(START, es);
  }

  /** A file's handler is invoked at most once, over any arrivals and crashes. */
  lemma AtMostOnce(es: seq<Event>)
    requires Runs(START, es)
    ensures NoDuplicates(Exec(START, es).handled)
  {
    hide Runs, Exec, Partition, ClaimInv, Leftovers, WorkInv, PlanInv;
    FromStart(es);
  }

  /** Every file that arrived is in exactly one of the inbox, the processing directory, the errors, or
      deleted, unless another party took it from the inbox; and it is deleted only after its handler
      returned without an error. */
  lemma NothingLost(es: seq<Event>)
    requires Runs(START, es)
    ensures var w := Exec(START, es);
            && w.arrived == w.inbox + w.processing + w.errors + w.deleted + w.withdrawn
            && w.inbox !! w.processing !! w.errors !! w.deleted !! w.withdrawn
            && (forall f :: f in w.deleted ==> f in w.returned && f in w.handled)
  {
    hide Runs, Exec, ClaimInv, Leftovers, WorkInv, PlanInv;
    FromStart(es);
  }

  lemma {:induction false} NoCrash(w: World, es: seq<Event>)
    requires Runs(w, es) && Crashes !in es
    ensures Exec(w, es).crashed == w.crashed
    decreases |es|
  {
    hide Enabled;
    if es != [] {
      assert es[0] != Crashes && Crashes !in es[1..];
      NoCrash(Step(w, es[0]), es[1..]);
    }
  }

  /** Without a crash only the file being worked on is in a processing directory; when a poll starts
      they are all empty. */
  lemma ProcessingEmptyWithoutCrash(es: seq<Event>)
    requires Runs(START, es) && Crashes !in es
    ensures var w := Exec(START, es);
            && (forall f :: f in w.processing ==> IsClaimed(w, f))
            && (w.watcher.Between? ==> w.processing == {})
  {
    hide Runs, Exec, Partition, History, ClaimInv, WorkInv, PlanInv;
    FromStart(es);
    NoCrash(START, es);
  }

  predicate StaysUp(e: Event) {
    !e.Crashes? && !e.StartsPoll?
  }

  lemma {:induction false} PlannedKept(w: World, es: seq<Event>)
    requires Runs(w, es) && forall e :: e in es ==> StaysUp(e)
    ensures Exec(w, es).planned == w.planned
    decreases |es|
  {
    hide Enabled;
    if es != [] {
      assert StaysUp(es[0]) && forall e :: e in es[1..] ==> StaysUp(e);
      PlannedKept(Step(w, es[0]), es[1..]);
    }
  }

  /** After a crash, the first completed poll of a group leaves nothing in its processing directories:
      what the crash left behind is in the errors, and its handler is not invoked again. */
  lemma PollRecovers(w: World, groups: seq<string>, es: seq<Event>)
    requires Inv(w) && w.watcher.Between?
    requires Runs(Step(w, StartsPoll(groups)), es) && forall e :: e in es ==> StaysUp(e)
    requires Exec(Step(w, StartsPoll(groups)), es).watcher.Between?
    ensures var t := Exec(Step(w, StartsPoll(groups)), es);
            forall f :: f in t.processing ==> f.dir !in Dirs(groups)
  {
    hide Runs, Exec, Partition, History, ClaimInv, WorkInv;
    var u := Step(w, StartsPoll(groups));
    StepInv(w, StartsPoll(groups));
    ReachableInv(u, es);
    PlannedKept(u, es);
  }

  /** A file is done with: deleted, in the errors, or taken from the inbox by others. */
  predicate Settled(w: World, f: File) {
    f in w.deleted || f in w.errors || f in w.withdrawn
  }

  /** When the watcher is done with a directory, every file it had listed there is deleted, in the
      errors, or was taken away by others. */
  lemma ServedToTheEnd(w: World, f: File)
    requires Inv(w) && Enabled(w, ServeDone) && f in WorkOf(w).listed
    ensures Settled(w, f)
  {
    hide History, PlanInv;
    assert f !in w.processing;
  }

  /** What has left the inbox never comes back, and what is deleted, in the errors or withdrawn stays
      there. */
  ghost predicate Onward(w: World, t: World) {
    && w.errors <= t.errors && w.deleted <= t.deleted && w.withdrawn <= t.withdrawn
    && (forall f :: f in w.arrived && f !in w.inbox ==> f !in t.inbox)
    && w.arrived <= t.arrived
  }

  lemma StepOnward(w: World, e: Event)
    requires Enabled(w, e)
    ensures Onward(w, Step(w, e))
  {
  }

  lemma {:induction false} RunsOnward(w: World, es: seq<Event>)
    requires Runs(w, es)
    ensures Onward(w, Exec(w, es))
    decreases |es|
  {
    hide Step, Enabled;
    if es != [] {
      StepOnward(w, es[0]);
      RunsOnward(Step(w, es[0]), es[1..]);
    }
  }
}
