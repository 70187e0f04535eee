/** What a recovery pool above the normal one does: groups listed for a slot are left idle when recovery
    opens more slots, and are then started twice, even without any task. */
module QueueRecovery {
  import opened QueueState
  import opened QueueSteps
  import opened QueueOneRun
  import opened QueueCapacity
  import opened QueueMessagesOnly
  import opened QueueSingle
  import opened QueueTraces

  /** Distinct groups. */
  function Name(i: nat): (g: Jid)
    ensures |g| == i
  {
    seq(i, _ => 'g')
  }

  ghost predicate NoTasks(es: seq<Event>) {
    forall e :: e in es ==> !e.TaskRequest?
  }

  lemma NoTasksSnoc(es: seq<Event>, e: Event)
    requires NoTasks(es) && !e.TaskRequest?
    ensures NoTasks(es + [e])
  {
  }

  /** The first k groups run messages, the others have never been heard of. */
  ghost predicate Filled(s: Queue, k: nat) {
    && s.handler && !s.shuttingDown && !s.recoveryMode && s.activeCount == k && s.waiting == [] && s.nextRun == k
    && (k > 0 ==> (Name(0), 0) in s.msgRuns && Get(s, Name(0)).pendingTasks == [] && !Get(s, Name(0)).pendingMessages)
    && forall i: nat :: i >= k ==> Get(s, Name(i)) == FRESH_GROUP
  }

  lemma OneMore(c: Limits, s: Queue, k: nat)
    requires Filled(s, k) && k < c.maxAgents
    ensures Filled(Do(c, s, MessageCheck(Name(k), false, 0)), k + 1)
  {
    hide AssertReports, TransitionReports, Name;
    StartsFresh(c, s, Name(k));
    assert |Name(0)| == 0 && |Name(k)| == k;
    forall i: nat | i > k ensures Get(StartMessages(NoteIpc(s, Name(k), false), Name(k)), Name(i)) == FRESH_GROUP {
      assert |Name(i)| == i;
    }
  }

  lemma StartsFresh(c: Limits, s: Queue, g: Jid)
    requires s.handler && !s.shuttingDown && Get(s, g) == FRESH_GROUP && s.activeCount < EffectiveMax(c, s)
    ensures Do(c, s, MessageCheck(g, false, 0)) == StartMessages(NoteIpc(s, g, false), g)
  {
    hide AssertReports, TransitionReports, StartMessages;
  }

  lemma {:induction false} Fill(c: Limits, k: nat) returns (es: seq<Event>)
    requires k <= c.maxAgents
    ensures NoTasks(es) && Filled(Exec(c, EMPTY_QUEUE, es), k)
    decreases k
  {
    if k == 0 {
      Then(c, [], SetHandler);
      es := [] + [SetHandler];
      assert Exec(c, EMPTY_QUEUE, es) == EMPTY_QUEUE.(handler := true);
    } else {
      es := Fill(c, k - 1);
      OneMore(c, Exec(c, EMPTY_QUEUE, es), k - 1);
      Then(c, es, MessageCheck(Name(k - 1), false, 0));
      NoTasksSnoc(es, MessageCheck(Name(k - 1), false, 0));
      es := es + [MessageCheck(Name(k - 1), false, 0)];
    }
  }

  /** All normal slots are taken, group k waits for one, and recovery is on. */
  ghost predicate Overflowing(s: Queue, k: nat) {
    && s.handler && !s.shuttingDown && s.recoveryMode && s.activeCount == k && s.waiting == [Name(k)] && s.nextRun == k
    && (k > 0 ==> (Name(0), 0) in s.msgRuns && Get(s, Name(0)).pendingTasks == [] && !Get(s, Name(0)).pendingMessages)
    && Get(s, Name(k)) == FRESH_GROUP.(pendingMessages := true)
  }

  lemma Overflow(c: Limits) returns (es: seq<Event>)
    requires 0 <= c.maxAgents
    ensures NoTasks(es) && Overflowing(Exec(c, EMPTY_QUEUE, es), c.maxAgents)
  {
    var n := c.maxAgents;
    var check := MessageCheck(Name(n), false, 0);
    es := Fill(c, n);
    var s := Exec(c, EMPTY_QUEUE, es);
    OneWaits(c, s, n);
    Then(c, es, check);
    NoTasksSnoc(es, check);
    Then(c, es + [check], EnterRecovery);
    NoTasksSnoc(es + [check], EnterRecovery);
    es := es + [check] + [EnterRecovery];
  }

  lemma OneWaits(c: Limits, s: Queue, n: nat)
    requires Filled(s, n) && n == c.maxAgents
    ensures Overflowing(Do(c, Do(c, s, MessageCheck(Name(n), false, 0)), EnterRecovery), n)
  {
    assert Get(s, Name(n)) == FRESH_GROUP;
    assert n > 0 ==> Name(0) != Name(n);
  }

  // ---- a slot left free

  /** Messages wait for nothing but a slot, in all histories, exactly when the recovery pool is not above the
      normal one. */
  lemma MessageWorkConservation(c: Limits)
    requires 1 <= c.maxAgents
    ensures (forall es, g :: !IdlesInVainAfter(c, es, g)) <==> c.recoveryAgents <= c.maxAgents
  {
    if c.recoveryAgents <= c.maxAgents {
      hide IdlesInVainAfter;
      forall es, g ensures !IdlesInVainAfter(c, es, g) {
        NeverIdlesInVain(c, es, g);
      }
    } else {
      var es := Overflow(c);
      assert IdlesInVainAfter(c, es, Name(c.maxAgents));
    }
  }

  // ---- a second run without any task

  /** Group k has been started beside the list, and more messages have come in for it. */
  ghost predicate StartedAside(s: Queue, k: nat) {
    && s.handler && !s.shuttingDown && s.recoveryMode && s.activeCount == k + 1 && s.waiting == [Name(k)]
    && s.nextRun == k + 1 && k > 0
    && (Name(0), 0) in s.msgRuns && Get(s, Name(0)).pendingTasks == [] && !Get(s, Name(0)).pendingMessages
    && (Name(k), k) in s.msgRuns
    && Get(s, Name(k)).runPhase == RunningMessages && Get(s, Name(k)).pendingMessages
  }

  lemma StartsAside(c: Limits, s: Queue, k: nat)
    requires Overflowing(s, k) && 0 < k < c.recoveryAgents
    ensures var check := MessageCheck(Name(k), false, 0);
            StartedAside(Do(c, Do(c, s, check), check), k)
  {
    hide AssertReports, TransitionReports;
    assert Name(0) != Name(k);
    var check := MessageCheck(Name(k), false, 0);
    assert Do(c, s, check) == StartMessages(NoteIpc(s, Name(k), false), Name(k));
  }

  lemma StartsAgain(c: Limits, s: Queue, k: nat)
    requires StartedAside(s, k) && k < c.recoveryAgents
    ensures !Single(Do(c, s, MessageRunEnds(Name(0), 0, Success, 0)))
  {
    hide AssertReports, TransitionReports, StartMessages;
    assert Name(0) != Name(k);
    var s1 := Ended(s, Name(0), 0, Success, 0);
    assert Get(s1, Name(k)) == Get(s, Name(k)) && s1.waiting == [Name(k)] && s1.activeCount == k;
    assert DrainGroup(c, s1, Name(0)) == DrainWaiting(c, s1);
    DrainOnly(c, s1, Name(k));
    var s2 := s1.(waiting := []);
    assert RunForGroup(c, s2, Name(k)) == StartMessages(s2, Name(k));
    StartsOne(s2, Name(k));
    DrainNobody(c, StartMessages(s2, Name(k)));
    assert (Name(k), k) in s2.msgRuns && s2.nextRun == k + 1;
    TwoInFlight(s2, Name(k), k);
  }

  lemma TwoInFlight(s: Queue, g: Jid, run: RunId)
    requires (g, run) in s.msgRuns && run != s.nextRun
    ensures !Single(StartMessages(s, g))
  {
    hide AssertReports, TransitionReports;
    var r := StartMessages(s, g);
    assert (g, run) in r.msgRuns && (g, s.nextRun) in r.msgRuns;
    assert r.msgRuns[(g, run)] > 0 && r.msgRuns[(g, s.nextRun)] > 0;
    assert !Matched(r, g);
  }

  lemma SecondRun(c: Limits) returns (es: seq<Event>)
    requires 1 <= c.maxAgents < c.recoveryAgents
    ensures NoTasks(es) && !Single(Exec(c, EMPTY_QUEUE, es))
  {
    var n := c.maxAgents;
    var check, end := MessageCheck(Name(n), false, 0), MessageRunEnds(Name(0), 0, Success, 0);
    es := Overflow(c);
    StartsAside(c, Exec(c, EMPTY_QUEUE, es), n);
    Then(c, es, check);
    NoTasksSnoc(es, check);
    Then(c, es + [check], check);
    NoTasksSnoc(es + [check], check);
    es := es + [check] + [check];
    StartsAgain(c, Exec(c, EMPTY_QUEUE, es), n);
    Then(c, es, end);
    NoTasksSnoc(es, end);
    es := es + [end];
  }

  ghost predicate SingleAfter(c: Limits, es: seq<Event>) {
    Single(Exec(c, EMPTY_QUEUE, es))
  }

  ghost predicate CalmAfter(c: Limits, es: seq<Event>) {
    Calm(c, Exec(c, EMPTY_QUEUE, es))
  }

  /** All histories without tasks keep one run per group, with matching phases and silent checks, exactly when
      the recovery pool is not above the normal one; and exactly then they also keep listed groups idle with
      messages, and the slots full while one is listed. */
  lemma OneRunWithoutTasks(c: Limits)
    requires 1 <= c.maxAgents
    ensures (forall es :: NoTasks(es) ==> SingleAfter(c, es)) <==> c.recoveryAgents <= c.maxAgents
    ensures (forall es :: NoTasks(es) ==> CalmAfter(c, es)) <==> c.recoveryAgents <= c.maxAgents
  {
    hide Exec, Single, Quiet, Full;
    if c.recoveryAgents <= c.maxAgents {
      forall es | NoTasks(es) ensures CalmAfter(c, es) && SingleAfter(c, es) {
        MessagesOnlyOneRun(c, es);
        OneIsSingle(Exec(c, EMPTY_QUEUE, es));
      }
    } else {
      var es := SecondRun(c);
      assert !SingleAfter(c, es);
      assert !CalmAfter(c, es) by {
        if One(Exec(c, EMPTY_QUEUE, es)) {
          OneIsSingle(Exec(c, EMPTY_QUEUE, es));
        }
      }
    }
  }
}
