/** The polling loop over the group directories, as loops over listings of files. Whatever it does is a run
    of the claim protocol, so the guarantees proved for all runs hold for it. */
module IpcWatcher {
  import opened Basics
  import opened FileClaims
  import opened ClaimSafety

  /** What the surroundings answer while a file is handled: whether the rename that claims it is refused,
      whether it parses, whether its handler and its deletion succeed, and which files arrive or are taken
      away meanwhile. */
  datatype Answer = Answer(refused: bool, valid: bool, handled: bool, deleted: bool,
                           arriving: seq<File>, vanishing: seq<File>)

  /** How the claim of a file ends: the file is taken, it is gone, or the rename throws. */
  datatype Outcome = Taken | Gone | Thrown

  /** From w to t nothing settled is undone, and what left the inbox is settled. */
  ghost predicate Advances(w: World, t: World) {
    && w.errors <= t.errors && w.deleted <= t.deleted && w.withdrawn <= t.withdrawn
    && forall f :: f in w.inbox ==> f in t.inbox || Settled(t, f)
  }

  lemma AdvancesOn(w: World, t: World, u: World)
    requires Advances(w, t) && Advances(t, u)
    ensures Advances(w, u)
  {
  }

  lemma SameFiles(w: World, t: World)
    requires t.inbox == w.inbox && t.errors == w.errors && t.deleted == w.deleted && t.withdrawn == w.withdrawn
    ensures Advances(w, t)
  {
  }

  lemma Unlinked(w: World, t: World)
    requires Enabled(w, Unlinks(true)) && t == Step(w, Unlinks(true))
    ensures Advances(w, t)
  {
  }

  lemma SettledStays(w: World, t: World, f: File)
    requires Advances(w, t) && Settled(w, f)
    ensures Settled(t, f)
  {
  }

  lemma InboxOrSettled(w: World, t: World, f: File)
    requires Advances(w, t) && f in w.inbox
    ensures f in t.inbox || Settled(t, f)
  {
  }

  /** A JSON file that is served is listed, and then settled. */
  lemma ServedIsSettled(w: World, t: World, dir: Dir, files: seq<File>)
    requires IsListing(files, w.inbox, dir) && Inv(t) && Enabled(t, ServeDone) && WorkOf(t).listed == files
    ensures forall f :: f in w.inbox && f.dir == dir && IsJson(f) ==> Settled(t, f)
  {
    hide Inv, Enabled, Settled, IsJson;
    forall f | f in w.inbox && f.dir == dir && IsJson(f) ensures Settled(t, f) {
      assert f in files;
      ServedToTheEnd(t, f);
    }
  }

  lemma SettledTogether(w: World, t: World, u: World, dir: Dir)
    requires Advances(t, u) && forall f :: f in w.inbox && f.dir == dir && IsJson(f) ==> Settled(t, f)
    ensures forall f :: f in w.inbox && f.dir == dir && IsJson(f) ==> Settled(u, f)
  {
  }

  /** No rename of the group's files throws. */
  ghost predicate Unrefused(answers: File -> Answer, group: string) {
    forall f: File :: f.dir.group == group ==> !answers(f).refused
  }

  /** The JSON files that were in the inbox of w for these groups are settled in t, unless a rename of their
      group throws. */
  ghost predicate ServedGroups(w: World, t: World, groups: seq<string>, answers: File -> Answer) {
    forall f :: f in w.inbox && f.dir.group in groups && IsJson(f) && Unrefused(answers, f.dir.group) ==>
      Settled(t, f)
  }

  lemma OneMoreGroup(was: World, w: World, t: World, groups: seq<string>, group: string, answers: File -> Answer)
    requires Advances(was, w) && Advances(w, t) && ServedGroups(was, w, groups, answers)
    requires Unrefused(answers, group) ==>
               forall f :: f in w.inbox && f.dir.group == group && IsJson(f) ==> Settled(t, f)
    ensures ServedGroups(was, t, groups + [group], answers)
  {
    hide IsJson, Unrefused;
  }

  lemma SameFilesServed(was: World, w: World, t: World, groups: seq<string>, answers: File -> Answer)
    requires ServedGroups(was, w, groups, answers) && Advances(w, t)
    ensures ServedGroups(was, t, groups, answers)
  {
    hide IsJson, Unrefused;
  }

  /** A directory that is clean holds nothing in processing between two jobs. */
  lemma CleanIsEmpty(w: World, dir: Dir)
    requires Inv(w) && WorkOf(w).Resting? && dir in w.clean
    ensures forall f :: f in w.processing ==> f.dir != dir
  {
  }

  lemma {:induction false} RunsSnoc(w: World, es: seq<Event>, e: Event)
    requires Runs(w, es) && Enabled(Exec(w, es), e)
    ensures Runs(w, es + [e]) && Exec(w, es + [e]) == Step(Exec(w, es), e)
    decreases |es|
  {
    hide Step, Enabled;
    if es == [] {
      assert (es + [e])[1..] == [] && Runs(Step(w, e), []);
    } else {
      assert (es + [e])[1..] == es[1..] + [e];
      RunsSnoc(Step(w, es[0]), es[1..], e);
    }
  }

  class Watch {
    var inbox: set<File>
    var processing: set<File>
    var errors: set<File>

    /** The names that writers have used so far. */
    var names: set<File>

    ghost var rest: World
    ghost var trace: seq<Event>

    /** The directories as they are, with the history and the position of the loop. */
    ghost function View(): World
      reads this
    {
      rest.(inbox := inbox, processing := processing, errors := errors, arrived := names)
    }

    /** All that happened is a run of the protocol. */
    ghost predicate Valid()
      reads this
    {
      Runs(START, trace) && Exec(START, trace) == View() && Inv(View())
    }

    constructor ()
      ensures Valid() && View() == START
    {
      inbox, processing, errors, names := {}, {}, {}, {};
      rest, trace := START, [];
      new;
      StartInv();
    }

    /** The bookkeeping of a step whose effect on the directories is done. */
    ghost method Note(w: World, e: Event)
      requires Runs(START, trace) && Exec(START, trace) == w && Inv(w) && Enabled(w, e)
      requires inbox == Step(w, e).inbox && processing == Step(w, e).processing
      requires errors == Step(w, e).errors && names == Step(w, e).arrived
      modifies this`rest, this`trace
      ensures Valid() && View() == Step(w, e) && trace == old(trace) + [e]
    {
      hide Inv, Step, Enabled, Runs, Exec;
      RunsSnoc(START, trace, e);
      StepInv(w, e);
      trace := trace + [e];
      rest := Step(w, e);
    }

    // ---- what others do

    method Restart()
      requires Valid() && View().watcher.Down?
      modifies this`rest, this`trace
      ensures Valid() && View() == Step(old(View()), Restarts)
    {
      hide Inv, Runs, Exec;
      Note(View(), Restarts);
    }

    method Crash()
      requires Valid() && !View().watcher.Down?
      modifies this`rest, this`trace
      ensures Valid() && View() == Step(old(View()), Crashes)
    {
      hide Inv, Runs, Exec;
      Note(View(), Crashes);
    }

    /** New files appear in the inbox; writers use each name once. */
    method Arrive(files: seq<File>)
      requires Valid()
      modifies this
      ensures Valid() && View() == old(View()).(inbox := inbox, arrived := names)
      ensures Advances(old(View()), View())
    {
      hide Inv, Runs, Exec;
      for i := 0 to |files|
        invariant Valid() && View() == old(View()).(inbox := inbox, arrived := names)
        invariant Advances(old(View()), View())
      {
        var f := files[i];
        ghost var w := View();
        if f !in names {
          names := names + {f};
          inbox := inbox + {f};
          Note(w, Arrives(f));
        }
      }
    }

    /** Others take files from the inbox. */
    method Vanish(files: seq<File>)
      requires Valid()
      modifies this
      ensures Valid() && View() == old(View()).(inbox := inbox, withdrawn := View().withdrawn)
      ensures Advances(old(View()), View())
    {
      hide Inv, Runs, Exec;
      for i := 0 to |files|
        invariant Valid() && View() == old(View()).(inbox := inbox, withdrawn := View().withdrawn)
        invariant Advances(old(View()), View())
      {
        var f := files[i];
        ghost var w := View();
        if f in inbox {
          inbox := inbox - {f};
          Note(w, Vanishes(f));
        }
      }
    }

    // ---- single file operations

    /** A listing of the files of a directory, in some order. */
    method ReadDir(from: set<File>, dir: Dir) returns (files: seq<File>)
      ensures IsListing(files, from, dir)
    {
      files := [];
      var left := from;
      while left != {}
        invariant left <= from && NoDuplicates(files)
        invariant forall f :: f in files <==> f in from - left && f.dir == dir && IsJson(f)
        decreases left
      {
        var f :| f in left;
        left := left - {f};
        if f.dir == dir && IsJson(f) {
          DistinctSnoc(files, f);
          files := files + [f];
        }
      }
    }

    /** The rename into the processing directory. */
    method ClaimIpcFile(f: File, refused: bool) returns (outcome: Outcome)
      requires Valid() && Enabled(View(), ClaimsOne) && f == WorkOf(View()).todo[0]
      modifies this
      ensures Valid() && View() == Step(old(View()), if outcome.Thrown? then ClaimThrows else ClaimsOne)
      ensures outcome == if refused then Thrown else if f in old(inbox) then Taken else Gone
    {
      hide Inv, Runs, Exec;
      ghost var w := View();
      if refused {
        Note(w, ClaimThrows);
        return Thrown;
      }
      outcome := if f in inbox then Taken else Gone;
      if outcome.Taken? {
        inbox := inbox - {f};
        processing := processing + {f};
      }
      Note(w, ClaimsOne);
    }

    method MoveClaimedIpcFileToError(f: File)
      requires Valid() && Enabled(View(), MovesToErrors) && f == ClaimOf(View()).value.file
      modifies this
      ensures Valid() && View() == Step(old(View()), MovesToErrors)
    {
      hide Inv, Runs, Exec;
      ghost var w := View();
      processing := processing - {f};
      errors := errors + {f};
      Note(w, MovesToErrors);
    }

    method Unlink(f: File, ok: bool)
      requires Valid() && Enabled(View(), Unlinks(ok)) && f == ClaimOf(View()).value.file
      modifies this
      ensures Valid() && View() == Step(old(View()), Unlinks(ok))
    {
      hide Inv, Runs, Exec;
      ghost var w := View();
      if ok {
        processing := processing - {f};
      }
      Note(w, Unlinks(ok));
    }

    method RenameToErrors(f: File)
      requires Valid() && Enabled(View(), QuarantinesOne) && f == WorkOf(View()).todo[0]
      modifies this
      ensures Valid() && View() == Step(old(View()), QuarantinesOne)
    {
      hide Inv, Runs, Exec;
      ghost var w := View();
      processing := processing - {f};
      errors := errors + {f};
      Note(w, QuarantinesOne);
    }

    // ---- the loops

    /** The watcher is about to take up this work, with these jobs left. */
    ghost predicate Stands(jobs: seq<Job>, work: Work)
      reads this
    {
      Valid() && View().watcher == Polling(jobs, work)
    }

    /** Leftovers of an earlier process go to the errors. */
    method QuarantineClaimedIpcFiles(dir: Dir, ghost jobs: seq<Job>)
      requires Stands([Quarantine(dir)] + jobs, Resting)
      modifies this
      ensures Stands(jobs, Resting)
      ensures View().planned == old(View().planned) && Advances(old(View()), View())
      ensures View().clean == old(View().clean) + {dir} && inbox == old(inbox)
      ensures forall f :: f in processing ==> f.dir != dir
      ensures forall f :: f in old(processing) && f.dir == dir && IsJson(f) ==> f in errors
    {
      hide Inv, Runs, Exec;
      assert ([Quarantine(dir)] + jobs)[1..] == jobs;
      var files := ReadDir(processing, dir);
      Note(View(), Lists(files));
      assert files[0..] == files;
      for i := 0 to |files|
        invariant Stands(jobs, Quarantining(dir, files[i..])) && View().planned == old(View().planned)
        invariant View().clean == old(View().clean) && inbox == old(inbox)
        invariant Advances(old(View()), View())
        invariant forall k :: 0 <= k < i ==> files[k] in errors
      {
        assert files[i..][1..] == files[i + 1..];
        RenameToErrors(files[i]);
      }
      Note(View(), QuarantineDone);
      CleanIsEmpty(View(), dir);
    }

    /** Claims and handles every file listed in a directory, unless a rename throws, which ends the work on
        the directory. */
    method ServeDirectory(dir: Dir, answers: File -> Answer, ghost jobs: seq<Job>)
      requires Stands([Serve(dir)] + jobs, Resting)
      modifies this
      ensures Stands(jobs, Resting)
      ensures View().planned == old(View().planned) && View().clean == old(View().clean)
      ensures Advances(old(View()), View())
      ensures Unrefused(answers, dir.group) ==>
                forall f :: f in old(inbox) && f.dir == dir && IsJson(f) ==> Settled(View(), f)
    {
      hide Inv, Runs, Exec, Settled, IsJson, Advances;
      assert ([Serve(dir)] + jobs)[1..] == jobs;
      var files := ReadDir(inbox, dir);
      Note(View(), Lists(files));
      SameFiles(old(View()), View());
      assert files[0..] == files;
      for i := 0 to |files|
        invariant Stands(jobs, Serving(dir, files, files[i..], None)) && View().planned == old(View().planned)
        invariant View().clean == old(View().clean) && Advances(old(View()), View())
      {
        assert files[i..][1..] == files[i + 1..] && files[i] in files;
        ghost var w := View();
        var thrown := ServeFile(files[i], answers(files[i]));
        AdvancesOn(old(View()), w, View());
        if thrown {
          return;
        }
      }
      ghost var w := View();
      ServedIsSettled(old(View()), w, dir, files);
      Note(w, ServeDone);
      SameFiles(w, View());
      AdvancesOn(old(View()), w, View());
      SettledTogether(old(View()), w, View(), dir);
    }

    /** One file of the listing; one that is gone is skipped. */
    method ServeFile(f: File, answer: Answer) returns (thrown: bool)
      requires Valid() && Enabled(View(), ClaimsOne) && f == WorkOf(View()).todo[0]
      modifies this
      ensures Valid() && View().planned == old(View().planned) && View().clean == old(View().clean)
      ensures thrown == answer.refused
      ensures View().watcher
           == old(View().watcher.(work := if answer.refused then Resting
                                          else View().watcher.work.(todo := WorkOf(View()).todo[1..])))
      ensures Advances(old(View()), View()) && (f in old(inbox) && !thrown ==> Settled(View(), f))
    {
      hide Inv, Runs, Exec;
      ghost var w := View();
      var outcome := ClaimIpcFile(f, answer.refused);
      thrown := outcome.Thrown?;
      if outcome.Taken? {
        assert forall g :: g in w.inbox ==> g == f || g in inbox;
        HandleClaimed(f, answer);
      }
    }

    /** The body of the loop: parse, handle, delete; what fails goes to the errors. */
    method HandleClaimed(f: File, answer: Answer)
      requires Valid() && ClaimOf(View()) == Some(Claim(f, Claimed))
      modifies this
      ensures Valid() && View().planned == old(View().planned) && View().clean == old(View().clean)
      ensures View().watcher == old(View().watcher.(work := View().watcher.work.(claim := None)))
      ensures Advances(old(View()), View())
      ensures f !in processing
      ensures if answer.valid && answer.handled && answer.deleted then f in View().deleted else f in errors
      ensures (f in View().handled) <==> f in old(View().handled) || answer.valid
    {
      hide Inv, Runs, Exec, Advances, Settled;
      if !answer.valid {
        Note(View(), FindsInvalid);
        SameFiles(old(View()), View());
        MoveToErrors(old(View()), f);
        return;
      }
      RunHandler(answer);
      if answer.handled {
        ghost var w := View();
        Unlink(f, answer.deleted);
        if answer.deleted {
          Unlinked(w, View());
          AdvancesOn(old(View()), w, View());
          return;
        }
        SameFiles(w, View());
        AdvancesOn(old(View()), w, View());
      }
      MoveToErrors(old(View()), f);
    }

    /** While the handler runs, files come and go. */
    method RunHandler(answer: Answer)
      requires Valid() && AtStage(View(), Claimed)
      modifies this
      ensures Valid()
      ensures View() == SetStage(old(View()), if answer.handled then Returned else Failed).(
                          handled := old(View().handled) + [ClaimOf(old(View())).value.file],
                          returned := View().returned, inbox := inbox, arrived := names,
                          withdrawn := View().withdrawn)
      ensures Advances(old(View()), View())
    {
      hide Inv, Runs, Exec, Advances;
      Note(View(), Invokes);
      SameFiles(old(View()), View());
      ghost var w := View();
      Arrive(answer.arriving);
      AdvancesOn(old(View()), w, View());
      w := View();
      Vanish(answer.vanishing);
      AdvancesOn(old(View()), w, View());
      w := View();
      Note(w, Returns(answer.handled));
      SameFiles(w, View());
      AdvancesOn(old(View()), w, View());
    }

    /** The move at the end of a handling that began at w. */
    method MoveToErrors(ghost w: World, f: File)
      requires Valid() && Enabled(View(), MovesToErrors) && f == ClaimOf(View()).value.file
      requires Advances(w, View())
      modifies this
      ensures Valid() && View() == Step(old(View()), MovesToErrors) && Advances(w, View())
    {
      hide Inv, Runs, Exec;
      MoveClaimedIpcFileToError(f);
    }

    /** One group: the leftovers of both directories first, then the files. */
    method ProcessGroup(group: string, answers: File -> Answer, ghost jobs: seq<Job>)
      requires Stands(GroupJobs(group) + jobs, Resting)
      modifies this
      ensures Stands(jobs, Resting)
      ensures View().planned == old(View().planned) && Advances(old(View()), View())
      ensures Unrefused(answers, group) ==>
                forall f :: f in old(inbox) && f.dir.group == group && IsJson(f) ==> Settled(View(), f)
    {
      hide Valid, IsJson, Settled, Advances, GroupJobs, Unrefused;
      var messages, tasks := Dir(group, false), Dir(group, true);
      ghost var all := GroupJobs(group) + jobs;
      JobsInOrder(group, jobs);
      ghost var was := View();
      QuarantineClaimedIpcFiles(messages, all[1..]);
      ghost var halfway := View();
      QuarantineClaimedIpcFiles(tasks, all[2..]);
      ghost var quarantined := View();
      AdvancesOn(was, halfway, quarantined);
      ServeDirectory(messages, answers, all[3..]);
      ghost var w := View();
      AdvancesOn(was, quarantined, w);
      ServeDirectory(tasks, answers, jobs);
      AdvancesOn(was, w, View());
      forall f | Unrefused(answers, group) && f in was.inbox && f.dir.group == group && IsJson(f)
        ensures Settled(View(), f)
      {
        if f.dir == messages {
          SettledStays(w, View(), f);
        } else {
          assert f.dir == tasks;
          InboxOrSettled(was, w, f);
          if Settled(w, f) {
            SettledStays(w, View(), f);
          }
        }
      }
    }

    /** One poll. When it is done, no processing directory of these groups holds a file, and every JSON file
        that had come in for one of them is deleted, in the errors, or was taken away by others, if no rename
        of its group threw. */
    method ProcessIpcFiles(groups: seq<string>, answers: File -> Answer)
      requires Valid() && View().watcher.Between?
      modifies this
      ensures Valid() && View().watcher.Between?
      ensures forall f :: f in processing ==> f.dir !in Dirs(groups)
      ensures ServedGroups(old(View()), View(), groups, answers) && Advances(old(View()), View())
    {
      hide Inv, Runs, Exec, Plan, GroupJobs, IsJson, Settled, Advances, Unrefused;
      ghost var was := View();
      Note(View(), StartsPoll(groups));
      SameFiles(was, View());
      assert groups[0..] == groups;
      for i := 0 to |groups|
        invariant Stands(Plan(groups[i..]), Resting) && View().planned == Dirs(groups)
        invariant Advances(was, View()) && ServedGroups(was, View(), groups[..i], answers)
      {
        PlanHead(groups, i);
        ghost var w := View();
        ProcessGroup(groups[i], answers, Plan(groups[i + 1..]));
        assert groups[..i + 1] == groups[..i] + [groups[i]];
        OneMoreGroup(was, w, View(), groups[..i], groups[i], answers);
        AdvancesOn(was, w, View());
      }
      assert groups[|groups|..] == [] && groups[..|groups|] == groups;
      NoPlan();
      ghost var w := View();
      Note(w, PollDone);
      NothingLeft(View());
      SameFiles(w, View());
      AdvancesOn(was, w, View());
      SameFilesServed(was, w, View(), groups, answers);
    }

    lemma JobsInOrder(group: string, jobs: seq<Job>)
      ensures var messages, tasks := Dir(group, false), Dir(group, true);
              var all := GroupJobs(group) + jobs;
              && |all| >= 4
              && all == [Quarantine(messages)] + all[1..] && all[1..] == [Quarantine(tasks)] + all[2..]
              && all[2..] == [Serve(messages)] + all[3..] && all[3..] == [Serve(tasks)] + jobs
    {
      var all := GroupJobs(group) + jobs;
      assert all[3..][1..] == jobs;
      assert all[2..][1..] == all[3..];
      assert all[1..][1..] == all[2..];
    }

    lemma NoPlan()
      ensures Plan([]) == []
    {
    }

    lemma PlanHead(groups: seq<string>, i: nat)
      requires i < |groups|
      ensures Plan(groups[i..]) == GroupJobs(groups[i]) + Plan(groups[i + 1..])
    {
      assert groups[i..][1..] == groups[i + 1..];
    }

    lemma NothingLeft(w: World)
      requires Inv(w) && w.watcher.Between?
      ensures forall f :: f in w.processing ==> f.dir !in w.planned
    {
    }
  }
}
