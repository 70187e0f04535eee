/** A task that is requested often and runs one at a time: requests made during a run are coalesced
    into one more run. */
module CoalescingTask {
  datatype Task = Task(requested: bool, inFlight: bool, ticker: bool)

  const IDLE := Task(false, false, false)

  /** The outcome of an operation, and whether a run of the task starts now. */
  datatype Outcome = Outcome(task: Task, runs: bool)

  function AfterRequest(t: Task): Outcome {
    if t.inFlight then Outcome(t.(requested := true), false)
    else Outcome(t.(requested := false, inFlight := true), true)
  }

  /** A run has ended: the drain loop looks for another request. */
  function AfterRun(t: Task): Outcome {
    if t.requested then Outcome(t.(requested := false), true)
    else Outcome(t.(inFlight := false), false)
  }

  /** A run has thrown: the drain is over, and a request made meanwhile stays set. */
  function AfterThrow(t: Task): Task {
    t.(inFlight := false)
  }

  function AfterCancel(t: Task): Task {
    t.(requested := false)
  }

  function AfterStart(t: Task, enabled: bool): Task {
    if enabled then t.(ticker := true) else t
  }

  function AfterStop(t: Task): Task {
    t.(ticker := false)
  }

  // ---- histories

  datatype Event = Requested | Ended | Threw | Cancelled

  /** asked counts the requests, started and ended the runs; covered and withdrawn are the numbers of
      requests that had been made when the latest run started and at the latest cancellation. */
  datatype History = History(task: Task, asked: nat, started: nat, ended: nat, covered: nat, withdrawn: nat)

  const FRESH := History(IDLE, 0, 0, 0, 0, 0)

  predicate Enabled(h: History, e: Event) {
    e == Ended || e == Threw ==> h.task.inFlight
  }

  function Begin(h: History, o: Outcome): History {
    if o.runs then h.(task := o.task, started := h.started + 1, covered := h.asked) else h.(task := o.task)
  }

  function Step(h: History, e: Event): History
    requires Enabled(h, e)
  {
    match e
    case Requested => Begin(h.(asked := h.asked + 1), AfterRequest(h.task))
    case Ended => Begin(h.(ended := h.ended + 1), AfterRun(h.task))
    case Threw => h.(ended := h.ended + 1, task := AfterThrow(h.task))
    case Cancelled => h.(task := AfterCancel(h.task), withdrawn := h.asked)
  }

  predicate Runs(h: History, es: seq<Event>)
    decreases |es|
  {
    es == [] || (Enabled(h, es[0]) && Runs(Step(h, es[0]), es[1..]))
  }

  function Exec(h: History, es: seq<Event>): History
    requires Runs(h, es)
    decreases |es|
  {
    if es == [] then h else Exec(Step(h, es[0]), es[1..])
  }

  /** Some request has neither been covered by a run that started at it or later, nor been withdrawn. */
  predicate Uncovered(h: History) {
    h.covered < h.asked && h.withdrawn < h.asked
  }

  predicate Inv(h: History) {
    && h.started == h.ended + (if h.task.inFlight then 1 else 0)
    && h.started <= h.asked && h.covered <= h.asked && h.withdrawn <= h.asked
    && (h.task.requested ==> h.started < h.asked)
    && (h.task.requested <==> Uncovered(h))
  }

  lemma {:induction false} ReachableInv(h: History, es: seq<Event>)
    requires Inv(h) && Runs(h, es)
    ensures Inv(Exec(h, es))
    decreases |es|
  {
    if es != [] {
      ReachableInv(Step(h, es[0]), es[1..]);
    }
  }

  /** At most one run is in flight, and there are never more runs than requests. */
  lemma SingleFlight(es: seq<Event>)
    requires Runs(FRESH, es)
    ensures var h := Exec(FRESH, es);
            && h.ended <= h.started <= h.ended + 1 && h.started <= h.asked
            && (h.started == h.ended <==> !h.task.inFlight)
  {
    ReachableInv(FRESH, es);
  }

  /** The latest end of a run was a throw with a request pending, which has not been withdrawn since;
      `before` says so of the time before these events. */
  predicate ThrewPending(h: History, es: seq<Event>, before: bool)
    requires Runs(h, es)
    decreases |es|
  {
    if es == [] then before
    else
      ThrewPending(Step(h, es[0]), es[1..],
                   match es[0]
                   case Threw => h.task.requested
                   case Requested => before
                   case _ => false)
  }

  lemma {:induction false} LeftByThrow(h: History, es: seq<Event>, before: bool)
    requires Inv(h) && Runs(h, es) && (!h.task.inFlight ==> (h.task.requested <==> before))
    ensures var t := Exec(h, es); Inv(t) && (!t.task.inFlight ==> (t.task.requested <==> ThrewPending(h, es, before)))
    decreases |es|
  {
    if es != [] {
      var now := match es[0] case Threw => h.task.requested case Requested => before case _ => false;
      LeftByThrow(Step(h, es[0]), es[1..], now);
    }
  }

  lemma {:induction false} NoThrowNoneLeft(h: History, es: seq<Event>)
    requires Runs(h, es) && Threw !in es
    ensures !ThrewPending(h, es, false)
    decreases |es|
  {
    if es != [] {
      assert es[0] != Threw && Threw !in es[1..];
      NoThrowNoneLeft(Step(h, es[0]), es[1..]);
    }
  }

  /** When the task is idle, a request is left that no run covers and nobody has withdrawn exactly when the
      last run threw with a request pending. So without a throw no request is lost: a run has started at
      or after the latest one, unless that was cancelled. */
  lemma NoRequestLost(es: seq<Event>)
    requires Runs(FRESH, es)
    ensures var h := Exec(FRESH, es);
            && (!h.task.inFlight ==> (Uncovered(h) <==> ThrewPending(FRESH, es, false)))
            && (!h.task.inFlight && Threw !in es ==> !Uncovered(h))
  {
    LeftByThrow(FRESH, es, false);
    if Threw !in es {
      NoThrowNoneLeft(FRESH, es);
    }
  }

  /** Two requests, and the run for the first one throws: the task is idle and the second is not covered. */
  lemma RequestLostByThrow()
    ensures var es := [Requested, Requested, Threw];
            && Runs(FRESH, es)
            && var h := Exec(FRESH, es);
               !h.task.inFlight && h.asked == 2 && h.covered == 1 && h.withdrawn == 0 && Uncovered(h)
  {
    var es := [Requested, Requested, Threw];
    var h1 := Step(FRESH, Requested);
    var h2 := Step(h1, Requested);
    var h3 := Step(h2, Threw);
    assert es[1..] == [Requested, Threw] && es[1..][1..] == [Threw] && es[1..][1..][1..] == [];
    assert Runs(h3, []) && Runs(h2, [Threw]) && Runs(h1, [Requested, Threw]);
  }

  function Repeat(n: nat): seq<Event> {
    if n == 0 then [] else [Requested] + Repeat(n - 1)
  }

  lemma {:induction false} BurstPends(h: History, n: nat)
    requires h.task.inFlight && n > 0
    ensures Runs(h, Repeat(n))
    ensures Exec(h, Repeat(n)) == h.(asked := h.asked + n, task := h.task.(requested := true))
    decreases n
  {
    assert Repeat(n)[1..] == Repeat(n - 1);
    if n > 1 {
      BurstPends(Step(h, Requested), n - 1);
    }
  }

  /** Any number of requests during a run that ends without throwing leads to exactly one more run. If the
      run throws, none follows it, until another request starts one that covers them all. */
  lemma BurstIsOneRun(h: History, n: nat)
    requires Inv(h) && h.task.inFlight && n > 0
    ensures Runs(h, Repeat(n))
    ensures var busy := Exec(h, Repeat(n));
            && Enabled(busy, Ended) && Enabled(busy, Threw)
            && var again, thrown := Step(busy, Ended), Step(busy, Threw);
            && busy.started == h.started && again.started == h.started + 1
            && Enabled(again, Ended)
            && again.covered == again.asked
            && !Step(again, Ended).task.inFlight
            && thrown.started == h.started && !thrown.task.inFlight && Uncovered(thrown)
            && var late := Step(thrown, Requested);
               late.started == h.started + 1 && late.covered == late.asked
  {
    BurstPends(h, n);
  }

  /** The task object: a flag for the pending request, one for the running drain, and the ticker. */
  class CoalescingAsyncTask {
    var inFlight: bool
    var requested: bool
    var ticker: bool

    ghost function View(): Task
      reads this
    {
      Task(requested, inFlight, ticker)
    }

    constructor ()
      ensures View() == IDLE
    {
      inFlight, requested, ticker := false, false, false;
    }

    method Request() returns (runs: bool)
      modifies this
      ensures Outcome(View(), runs) == AfterRequest(old(View()))
    {
      requested := true;
      runs := false;
      if !inFlight {
        inFlight := true;
        runs := Drain();
      }
    }

    /** The head of the drain loop: starts the next run, or ends the drain. */
    method Drain() returns (runs: bool)
      modifies this
      ensures Outcome(View(), runs) == AfterRun(old(View()))
    {
      runs := requested;
      if requested {
        requested := false;
      } else {
        inFlight := false;
      }
    }

    /** The run has thrown: the loop is left through its finally block. */
    method Fail()
      modifies this
      ensures View() == AfterThrow(old(View()))
    {
      inFlight := false;
    }

    method CancelPending()
      modifies this
      ensures View() == AfterCancel(old(View()))
    {
      requested := false;
    }

    method Start(enabled: bool)
      modifies this
      ensures View() == AfterStart(old(View()), enabled)
    {
      if !enabled || ticker {
        return;
      }
      ticker := true;
    }

    method Stop()
      modifies this
      ensures View() == AfterStop(old(View()))
    {
      if !ticker {
        return;
      }
      ticker := false;
    }
  }
}
