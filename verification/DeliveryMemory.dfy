/** The bounded memory of direct terminal deliveries of one group: a map from run id to the texts
    delivered per sender role, kept in insertion order and cut to the 16 most recent runs. It is
    compared with the full log of what was ever recorded. */
module DeliveryMemory {
  import opened Basics

  type RunKey = string
  type Role = string
  type Text = string

  const MAX_RUNS := 16

  /** A JavaScript Map in its iteration order. */
  type Memory = seq<(RunKey, map<Role, Text>)>

  datatype Record = Record(run: RunKey, role: Role, text: Text)

  function Keys(m: Memory): (ks: seq<RunKey>)
    ensures |ks| == |m| && forall i :: 0 <= i < |m| ==> ks[i] == m[i].0
  {
    seq(|m|, i requires 0 <= i < |m| => m[i].0)
  }

  /** The entry of the run, or an empty one. */
  function Entry(m: Memory, run: RunKey): map<Role, Text> {
    if m == [] then map[] else if m[0].0 == run then m[0].1 else Entry(m[1..], run)
  }

  function Delete(m: Memory, run: RunKey): Memory {
    if m == [] then [] else if m[0].0 == run then Delete(m[1..], run) else [m[0]] + Delete(m[1..], run)
  }

  /** Drops the oldest entries; the empty run id stops the loop, as it counts as "no key". */
  function Evict(m: Memory): Memory {
    if |m| > MAX_RUNS && m[0].0 != "" then Evict(m[1..]) else m
  }

  /** Recording one delivery: the run moves to the end with its new text, then the cut. */
  function Note(m: Memory, r: Record): Memory {
    Evict(Delete(m, r.run) + [(r.run, Entry(m, r.run)[r.role := r.text])])
  }

  // ---- the log

  function NoteAll(log: seq<Record>): Memory {
    if log == [] then [] else Note(NoteAll(log[..|log| - 1]), log[|log| - 1])
  }

  function Without(ks: seq<RunKey>, run: RunKey): seq<RunKey> {
    if ks == [] then [] else if ks[0] == run then Without(ks[1..], run) else [ks[0]] + Without(ks[1..], run)
  }

  /** The distinct runs of the log in order of their last record. */
  function ByRecency(log: seq<Record>): seq<RunKey> {
    if log == [] then []
    else Without(ByRecency(log[..|log| - 1]), log[|log| - 1].run) + [log[|log| - 1].run]
  }

  function Last<T>(n: nat, xs: seq<T>): (r: seq<T>)
    ensures r == if |xs| > n then xs[|xs| - n..] else xs
  {
    if |xs| > n then xs[|xs| - n..] else xs
  }

  /** The last text the log has for the run and role. */
  function Latest(log: seq<Record>, run: RunKey, role: Role): (t: Text)
    requires exists r :: r in log && r.run == run && r.role == role
  {
    var r := log[|log| - 1];
    if r.run == run && r.role == role then r.text
    else
      Earlier(log, run, role);
      Latest(log[..|log| - 1], run, role)
  }

  lemma Earlier(log: seq<Record>, run: RunKey, role: Role)
    requires exists r :: r in log && r.run == run && r.role == role
    requires !(log[|log| - 1].run == run && log[|log| - 1].role == role)
    ensures exists r :: r in log[..|log| - 1] && r.run == run && r.role == role
  {
    var r :| r in log && r.run == run && r.role == role;
    assert r in log[..|log| - 1];
  }

  // ---- facts about the helpers

  lemma {:induction false} WithoutIs(ks: seq<RunKey>, run: RunKey)
    requires NoDuplicates(ks)
    ensures NoDuplicates(Without(ks, run)) && forall k :: k in Without(ks, run) <==> k in ks && k != run
    ensures run !in ks ==> Without(ks, run) == ks
  {
    if ks != [] {
      DistinctTail(ks);
      WithoutIs(ks[1..], run);
      if ks[0] != run {
        DistinctCons(ks[0], Without(ks[1..], run));
      }
    }
  }

  lemma {:induction false} ByRecencyIs(log: seq<Record>)
    ensures NoDuplicates(ByRecency(log))
    ensures forall k :: k in ByRecency(log) <==> exists r :: r in log && r.run == k
  {
    hide Without;
    if log != [] {
      var n := |log| - 1;
      ByRecencyIs(log[..n]);
      var before := Without(ByRecency(log[..n]), log[n].run);
      WithoutIs(ByRecency(log[..n]), log[n].run);
      DistinctSnoc(before, log[n].run);
      assert forall r :: r in log <==> r in log[..n] || r == log[n];
      forall k ensures k in ByRecency(log) <==> exists r :: r in log && r.run == k {
        assert k in ByRecency(log) <==> k in ByRecency(log[..n]) || k == log[n].run;
      }
    }
  }

  lemma {:induction false} DeleteKeys(m: Memory, run: RunKey)
    ensures Keys(Delete(m, run)) == Without(Keys(m), run)
  {
    if m != [] {
      DeleteKeys(m[1..], run);
      assert Keys(m)[1..] == Keys(m[1..]);
      if m[0].0 != run {
        assert Keys([m[0]] + Delete(m[1..], run)) == [m[0].0] + Keys(Delete(m[1..], run));
      }
    }
  }

  /** Without the empty run id, eviction keeps exactly the last 16 entries. */
  lemma {:induction false} EvictIsLast(m: Memory)
    requires forall k :: k in Keys(m) ==> k != ""
    ensures Evict(m) == Last(MAX_RUNS, m)
  {
    if |m| > MAX_RUNS {
      assert m[0].0 in Keys(m);
      assert forall k :: k in Keys(m[1..]) ==> k in Keys(m);
      EvictIsLast(m[1..]);
    }
  }

  lemma {:induction false} WithoutConcat(a: seq<RunKey>, b: seq<RunKey>, run: RunKey)
    ensures Without(a + b, run) == Without(a, run) + Without(b, run)
  {
    if a == [] {
      assert a + b == b;
    } else {
      assert (a + b)[1..] == a[1..] + b;
      WithoutConcat(a[1..], b, run);
    }
  }

  lemma LastOfConcat<T>(n: nat, x: seq<T>, y: seq<T>)
    requires |y| >= n
    ensures Last(n, x + y) == Last(n, y)
  {
  }

  /** Cutting before or after moving one run to the end gives the same last 16. */
  lemma CutThenMove(ks: seq<RunKey>, run: RunKey)
    requires NoDuplicates(ks)
    ensures Last(MAX_RUNS, Without(Last(MAX_RUNS, ks), run) + [run]) == Last(MAX_RUNS, Without(ks, run) + [run])
  {
    if |ks| > MAX_RUNS {
      var a, b := ks[..|ks| - MAX_RUNS], ks[|ks| - MAX_RUNS..];
      assert ks == a + b;
      WithoutConcat(a, b, run);
      WithoutLength(b, run);
      LastOfConcat(MAX_RUNS, Without(a, run), Without(b, run) + [run]);
      assert Without(ks, run) + [run] == Without(a, run) + (Without(b, run) + [run]);
    }
  }

  lemma {:induction false} WithoutLength(ks: seq<RunKey>, run: RunKey)
    requires NoDuplicates(ks)
    ensures |ks| - 1 <= |Without(ks, run)| <= |ks|
  {
    if ks != [] {
      if ks[0] == run {
        WithoutIs(ks[1..], run);
      }
      WithoutLength(ks[1..], run);
    }
  }

  // ---- the memory against the log

  ghost predicate NamedRuns(log: seq<Record>) {
    forall r :: r in log ==> r.run != ""
  }

  /** The memory holds exactly the 16 most recently recorded runs, in order of recency. */
  lemma {:induction false} KeepsMostRecentRuns(log: seq<Record>)
    requires NamedRuns(log)
    ensures Keys(NoteAll(log)) == Last(MAX_RUNS, ByRecency(log))
  {
    hide Without, Delete, Evict, Entry;
    if log != [] {
      var n := |log| - 1;
      var m, r := NoteAll(log[..n]), log[n];
      KeepsMostRecentRuns(log[..n]);
      ByRecencyIs(log[..n]);
      DeleteKeys(m, r.run);
      var moved := Delete(m, r.run) + [(r.run, Entry(m, r.run)[r.role := r.text])];
      assert Keys(moved) == Keys(Delete(m, r.run)) + [r.run];
      WithoutIs(Keys(m), r.run);
      forall k | k in Keys(moved) ensures k != "" {
        assert k in Keys(m) || k == r.run;
        assert k in Keys(m) ==> k in ByRecency(log[..n]);
      }
      EvictIsLast(moved);
      assert Keys(Last(MAX_RUNS, moved)) == Last(MAX_RUNS, Keys(moved));
      CutThenMove(ByRecency(log[..n]), r.run);
    }
  }

  lemma {:induction false} EntryAfterDelete(m: Memory, run: RunKey, other: RunKey)
    ensures Entry(Delete(m, run), other) == if other == run then map[] else Entry(m, other)
  {
    if m != [] {
      EntryAfterDelete(m[1..], run, other);
    }
  }

  lemma {:induction false} EntryConcat(a: Memory, b: Memory, run: RunKey)
    ensures Entry(a + b, run) == if run in Keys(a) then Entry(a, run) else Entry(b, run)
  {
    if a == [] {
      assert a + b == b;
    } else {
      assert (a + b)[1..] == a[1..] + b;
      assert Keys(a) == [a[0].0] + Keys(a[1..]);
      EntryConcat(a[1..], b, run);
    }
  }

  /** Eviction forgets whole runs; what it keeps it keeps unchanged. */
  lemma {:induction false} EntryAfterEvict(m: Memory, run: RunKey)
    requires NoDuplicates(Keys(m))
    ensures Entry(Evict(m), run) == map[] || Entry(Evict(m), run) == Entry(m, run)
    ensures |m| <= MAX_RUNS ==> Evict(m) == m
  {
    if |m| > MAX_RUNS && m[0].0 != "" {
      assert Keys(m)[1..] == Keys(m[1..]);
      EntryAfterEvict(m[1..], run);
      if m[0].0 == run {
        NoEntry(m[1..], run);
      }
    }
  }

  lemma {:induction false} NoEntry(m: Memory, run: RunKey)
    requires run !in Keys(m)
    ensures Entry(m, run) == map[]
  {
    if m != [] {
      assert Keys(m) == [m[0].0] + Keys(m[1..]);
      NoEntry(m[1..], run);
    }
  }

  lemma {:induction false} KeysDistinct(log: seq<Record>)
    ensures NoDuplicates(Keys(NoteAll(log)))
  {
    if log != [] {
      var n := |log| - 1;
      KeysDistinct(log[..n]);
      MovedDistinct(NoteAll(log[..n]), log[n]);
      EvictDistinct(Moved(NoteAll(log[..n]), log[n]));
    }
  }

  function Moved(m: Memory, r: Record): Memory {
    Delete(m, r.run) + [(r.run, Entry(m, r.run)[r.role := r.text])]
  }

  lemma MovedDistinct(m: Memory, r: Record)
    requires NoDuplicates(Keys(m))
    ensures NoDuplicates(Keys(Moved(m, r)))
    ensures forall run :: Entry(Moved(m, r), run)
                          == if run == r.run then Entry(m, run)[r.role := r.text] else Entry(m, run)
  {
    DeleteKeys(m, r.run);
    WithoutIs(Keys(m), r.run);
    assert Keys(Moved(m, r)) == Keys(Delete(m, r.run)) + [r.run];
    var tail: Memory := [(r.run, Entry(m, r.run)[r.role := r.text])];
    forall run ensures Entry(Moved(m, r), run)
                       == if run == r.run then Entry(m, run)[r.role := r.text] else Entry(m, run) {
      EntryConcat(Delete(m, r.run), tail, run);
      EntryAfterDelete(m, r.run, run);
      if run !in Keys(Delete(m, r.run)) {
        NoEntry(Delete(m, r.run), run);
        if run != r.run {
          assert run !in Keys(m);
          NoEntry(m, run);
        }
      }
    }
  }

  lemma {:induction false} EvictDistinct(m: Memory)
    requires NoDuplicates(Keys(m))
    ensures NoDuplicates(Keys(Evict(m)))
  {
    if |m| > MAX_RUNS && m[0].0 != "" {
      assert Keys(m)[1..] == Keys(m[1..]);
      EvictDistinct(m[1..]);
    }
  }

  /** Every text the memory holds is the last one the log has for that run and role. */
  lemma {:induction false} KeepsLatestTexts(log: seq<Record>, run: RunKey, role: Role)
    requires role in Entry(NoteAll(log), run)
    ensures (exists r :: r in log && r.run == run && r.role == role)
    ensures Entry(NoteAll(log), run)[role] == Latest(log, run, role)
  {
    if log != [] {
      var n := |log| - 1;
      var m, r := NoteAll(log[..n]), log[n];
      KeysDistinct(log[..n]);
      MovedDistinct(m, r);
      EntryAfterEvict(Moved(m, r), run);
      assert r in log;
      if !(r.run == run && r.role == role) {
        assert role in Entry(m, run);
        KeepsLatestTexts(log[..n], run, role);
        assert forall q :: q in log[..n] ==> q in log;
      }
    }
  }

  /** As long as no more than 16 runs were ever recorded, nothing is forgotten. */
  lemma {:induction false} ForgetsNothingBelowTheLimit(log: seq<Record>, run: RunKey, role: Role)
    requires |ByRecency(log)| <= MAX_RUNS
    ensures role in Entry(NoteAll(log), run) <==> exists r :: r in log && r.run == run && r.role == role
  {
    if log != [] {
      var n := |log| - 1;
      var m, r := NoteAll(log[..n]), log[n];
      ByRecencyIs(log[..n]);
      WithoutLength(ByRecency(log[..n]), r.run);
      KeysDistinct(log[..n]);
      MovedDistinct(m, r);
      ForgetsNothingBelowTheLimit(log[..n], run, role);
      SizeBelowTheLimit(log);
      assert forall q :: q in log <==> q in log[..n] || q == r;
      EntryAfterEvict(Moved(m, r), run);
    }
  }

  lemma {:induction false} SizeBelowTheLimit(log: seq<Record>)
    requires |ByRecency(log)| <= MAX_RUNS
    ensures Keys(NoteAll(log)) == ByRecency(log)
    ensures log != [] ==> |Moved(NoteAll(log[..|log| - 1]), log[|log| - 1])| <= MAX_RUNS
  {
    if log != [] {
      var n := |log| - 1;
      var m, r := NoteAll(log[..n]), log[n];
      ByRecencyIs(log[..n]);
      WithoutLength(ByRecency(log[..n]), r.run);
      SizeBelowTheLimit(log[..n]);
      DeleteKeys(m, r.run);
      assert Keys(Moved(m, r)) == Keys(Delete(m, r.run)) + [r.run];
      assert |Moved(m, r)| == |ByRecency(log)|;
    }
  }

  /** Eviction of any memory reaches its limit exactly when none of the entries to drop has the empty run
      id. */
  lemma {:induction false} EvictionReachesLimit(m: Memory)
    ensures |Evict(m)| <= MAX_RUNS <==> |m| <= MAX_RUNS || "" !in Keys(m)[..|m| - MAX_RUNS]
  {
    if |m| > MAX_RUNS {
      var n := |m| - MAX_RUNS;
      assert Keys(m)[..n] == [m[0].0] + Keys(m[1..])[..n - 1];
      EvictionReachesLimit(m[1..]);
    }
  }

  /** The run ids the program notes are not empty, so its memory never holds more than 16 runs. */
  lemma NeverAboveTheLimit(log: seq<Record>)
    requires NamedRuns(log)
    ensures |NoteAll(log)| <= 16
  {
    hide NoteAll, ByRecency;
    KeepsMostRecentRuns(log);
    assert |Keys(NoteAll(log))| == |NoteAll(log)|;
  }

  lemma LastIsEntry(m: Memory)
    requires |m| > 0
    ensures NoDuplicates(Keys(m)) ==> Entry(m, m[|m| - 1].0) == m[|m| - 1].1
  {
    var n := |m| - 1;
    if NoDuplicates(Keys(m)) {
      EntryConcat(m[..n], m[n..], m[n].0);
      assert m[..n] + m[n..] == m;
      assert forall i :: 0 <= i < n ==> Keys(m)[i] != Keys(m)[n];
    }
  }

  /** After a record the newest entry is the one of its run. */
  lemma NewestEntry(log: seq<Record>, r: Record)
    requires NamedRuns(log) && r.run != ""
    ensures NamedRuns(log + [r]) && NoteAll(log + [r]) == Note(NoteAll(log), r)
    ensures var m := NoteAll(log + [r]);
            |m| > 0 && m[|m| - 1] == (r.run, Entry(NoteAll(log), r.run)[r.role := r.text])
    ensures NoteAll(log) != [] && NoteAll(log)[|NoteAll(log)| - 1].0 == r.run ==>
              Entry(NoteAll(log), r.run) == NoteAll(log)[|NoteAll(log)| - 1].1
  {
    assert (log + [r])[..|log|] == log;
    EvictKeepsLast(Moved(NoteAll(log), r));
    if NoteAll(log) != [] {
      KeysDistinct(log);
      LastIsEntry(NoteAll(log));
    }
  }

  lemma {:induction false} EvictKeepsLast(m: Memory)
    requires |m| > 0
    ensures |Evict(m)| > 0 && Evict(m)[|Evict(m)| - 1] == m[|m| - 1]
  {
    if |m| > MAX_RUNS && m[0].0 != "" {
      EvictKeepsLast(m[1..]);
    }
  }

  lemma {:induction false} LatestIsLogged(log: seq<Record>, run: RunKey, role: Role)
    requires exists r :: r in log && r.run == run && r.role == role
    ensures Record(run, role, Latest(log, run, role)) in log
  {
    var r := log[|log| - 1];
    if !(r.run == run && r.role == role) {
      Earlier(log, run, role);
      LatestIsLogged(log[..|log| - 1], run, role);
    }
  }
}
