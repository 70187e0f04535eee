/** Rotation comes to an end: while no account is revived, at most n-1 rotations over authentication
    failures can succeed. */
module RotationBound {
  import opened Basics
  import opened AccountPool
  import opened AccountSearch

  /** No auth file is newer than now. */
  ghost predicate Stable(p: Pool) {
    WellFormed(p) && forall i :: 0 <= i < |p.accounts| ==> p.disk[i].mtime <= p.now
  }

  /** The account stays dead when it is examined. */
  predicate Dead(p: Pool, i: nat)
    requires WellFormed(p) && i < |p.accounts|
  {
    Restored(p.accounts[i], p.disk[i].mtime).dead
  }

  /** Neither an auth file is rewritten nor an account declared healthy or chosen by hand. */
  predicate Reviving(e: Event) {
    e.AuthRewritten? || e.Succeeds? || e.Switches?
  }

  ghost function Deads(p: Pool): set<nat>
    requires WellFormed(p)
  {
    set i: nat | i < |p.accounts| && Dead(p, i)
  }

  ghost function Below(n: nat): (s: set<nat>)
    ensures |s| == n && forall i: nat :: i in s <==> i < n
  {
    if n == 0 then {} else Below(n - 1) + {n - 1}
  }

  lemma {:induction false} SubsetCount(a: set<nat>, b: set<nat>)
    requires a <= b
    ensures |a| <= |b|
    decreases |a|
  {
    if a != {} {
      var x :| x in a;
      SubsetCount(a - {x}, b - {x});
    }
  }

  /** The number of dead accounts, not counting the current one. */
  ghost function Spent(p: Pool): nat
    requires WellFormed(p)
  {
    |Deads(p) - {p.current}|
  }

  lemma SpentBelow(p: Pool)
    requires WellFormed(p) && p.accounts != []
    ensures Spent(p) <= |p.accounts| - 1
  {
    var others := Below(|p.accounts|) - {p.current};
    assert |others| == |p.accounts| - 1;
    SubsetCount(Deads(p) - {p.current}, others);
  }

  ghost predicate SameDeads(p: Pool, q: Pool)
    requires WellFormed(p) && WellFormed(q)
  {
    |q.accounts| == |p.accounts| && forall i: nat :: i < |p.accounts| ==> Dead(q, i) == Dead(p, i)
  }

  /** Moving to an account that is alive does not lower the number of the others that are dead. */
  lemma SpentKept(p: Pool, q: Pool)
    requires WellFormed(p) && WellFormed(q) && SameDeads(p, q)
    requires q.current == p.current || q.current !in Deads(q)
    ensures Spent(q) >= Spent(p)
  {
    assert Deads(q) == Deads(p);
    SubsetCount(Deads(p) - {p.current}, Deads(q) - {q.current});
  }

  /** Leaving the current account dead behind raises it. */
  lemma SpentRaised(p: Pool, q: Pool)
    requires WellFormed(p) && WellFormed(q) && |q.accounts| == |p.accounts| && p.current < |p.accounts|
    requires forall i: nat :: i < |p.accounts| ==> Dead(q, i) == (Dead(p, i) || i == p.current)
    requires q.current != p.current && q.current !in Deads(q)
    ensures Spent(q) == Spent(p) + 1
  {
    assert Deads(q) - {q.current} == (Deads(p) - {p.current}) + {p.current};
  }

  lemma SpentSame(p: Pool, q: Pool)
    requires WellFormed(p) && WellFormed(q) && |q.accounts| == |p.accounts| && q.current == p.current
    requires forall i: nat :: i < |p.accounts| && i != p.current ==> Dead(q, i) == Dead(p, i)
    ensures Spent(q) == Spent(p)
  {
    assert Deads(q) - {p.current} == Deads(p) - {p.current};
  }

  // ---- looking brings nobody back, and finds somebody alive

  lemma ExaminedDeads(p: Pool, q: Pool)
    requires WellFormed(p) && Examined(p, q)
    ensures WellFormed(q) && SameDeads(p, q)
  {
    forall i: nat | i < |p.accounts| ensures Dead(q, i) == Dead(p, i) {
      ExaminedUsable(p, q, i, Ignoring(true, true));
    }
  }

  lemma FindNextDeads(p: Pool, start: nat, ignoreLimits: bool)
    requires WellFormed(p) && start < |p.accounts|
    ensures var f := FindNext(p, start, ignoreLimits);
            SameDeads(p, f.pool) && (f.index.Some? ==> f.index.value != start && !Dead(p, f.index.value))
  {
    hide FindNext, Examined, FirstAt, NoneAt, SameDeads, Usable;
    var k := FindNextSpec(p, start, ignoreLimits);
    var f := FindNext(p, start, ignoreLimits);
    ExaminedDeads(p, f.pool);
    if f.index.Some? {
      SoundIfUsable(p, start, k, ignoreLimits);
    }
  }

  /** Limits have nothing to do with death. */
  lemma LimitDeads(p: Pool, i: nat, until: Option<nat>)
    requires WellFormed(p) && i < |p.accounts|
    ensures SameDeads(p, SetLimit(p, i, until))
  {
  }

  lemma MovedDeads(p: Pool, i: nat)
    requires WellFormed(p) && i < |p.accounts|
    ensures SameDeads(p, p.(current := i))
  {
  }

  /** A rotation ends with the deaths there were after the blame, and on an account that is alive. */
  lemma RotateDeads(p: Pool, f: Failure, ignoreLimits: bool)
    requires WellFormed(p) && |p.accounts| > 1 && !f.PoolUnavailable?
    ensures var r := Rotate(p, f, ignoreLimits);
            && SameDeads(Blame(p, f), r.pool)
            && (r.ok ==> r.pool.current != p.current && !Dead(r.pool, r.pool.current))
            && (!r.ok ==> r.pool.current == p.current)
  {
    hide FindNext, Dead;
    var blamed := Blame(p, f);
    FindNextDeads(blamed, p.current, ignoreLimits);
    var next := FindNext(blamed, p.current, ignoreLimits);
    if next.index.Some? {
      LimitDeads(next.pool, next.index.value, None);
      MovedDeads(SetLimit(next.pool, next.index.value, None), next.index.value);
    }
  }

  lemma RotateStable(p: Pool, f: Failure, ignoreLimits: bool)
    requires Stable(p)
    ensures var r := Rotate(p, f, ignoreLimits);
            && Stable(r.pool)
            && Spent(r.pool) >= Spent(p) + (if r.ok && f.AuthExpired? then 1 else 0)
  {
    hide Rotate, Dead, Spent;
    var r := Rotate(p, f, ignoreLimits);
    if f.PoolUnavailable? || |p.accounts| <= 1 {
      NoRotation(p, f, ignoreLimits);
    } else {
      RotateDeads(p, f, ignoreLimits);
      if f.AuthExpired? {
        MarkDeadDies(p);
        if r.ok {
          SpentRaised(p, r.pool);
        } else {
          SpentSame(p, r.pool);
        }
      } else {
        LimitDeads(p, p.current, Some(f.until));
        SpentKept(p, r.pool);
      }
    }
  }

  lemma NoRotation(p: Pool, f: Failure, ignoreLimits: bool)
    requires WellFormed(p) && (|p.accounts| <= 1 || f.PoolUnavailable?)
    ensures Rotate(p, f, ignoreLimits) == Rotated(p, false)
  {
  }

  /** An account marked dead is not restored by an auth file that was there before. */
  lemma MarkDeadDies(p: Pool)
    requires Stable(p) && p.accounts != []
    ensures forall i: nat :: i < |p.accounts| ==> Dead(MarkDead(p, p.current), i) == (Dead(p, i) || i == p.current)
  {
  }

  /** Steps that change no account's death and no auth file, and stay on the account or go to one that is
      alive. */
  lemma OtherStable(p: Pool, q: Pool)
    requires Stable(p) && WellFormed(q) && SameDeads(p, q) && q.now >= p.now
    requires forall i :: 0 <= i < |p.accounts| ==> q.disk[i].mtime == p.disk[i].mtime
    requires q.current == p.current || (q.accounts != [] && !Dead(q, q.current))
    ensures Stable(q) && Spent(q) >= Spent(p)
  {
    SpentKept(p, q);
  }

  lemma AdvanceStable(p: Pool)
    requires Stable(p)
    ensures Stable(Advance(p)) && Spent(Advance(p)) >= Spent(p)
  {
    hide FindNext, Dead, Spent;
    if |p.accounts| > 1 {
      FindNextDeads(p, p.current, false);
      var next := FindNext(p, p.current, false);
      if next.index.Some? {
        MovedDeads(next.pool, next.index.value);
      }
      OtherStable(p, Advance(p));
    }
  }

  lemma UsageStable(p: Pool, i: nat, d7: Option<real>)
    requires Stable(p)
    ensures Stable(UpdateUsage(p, i, d7)) && Spent(UpdateUsage(p, i, d7)) >= Spent(p)
  {
    hide FindNext, Spent;
    if i < |p.accounts| && d7.Some? {
      var noted := p.(accounts := p.accounts[i := p.accounts[i].(d7 := d7)]);
      assert SameDeads(p, noted);
      FindNextDeads(noted, i, false);
      hide Dead;
      var next := FindNext(noted, i, false);
      if next.index.Some? {
        MovedDeads(next.pool, next.index.value);
      }
      OtherStable(p, UpdateUsage(p, i, d7));
    }
  }

  predicate Success(p: Pool, e: Event)
    requires WellFormed(p)
  {
    e.Rotates? && e.failure.AuthExpired? && Rotate(p, e.failure, e.ignoreLimits).ok
  }

  lemma StepStable(p: Pool, e: Event)
    requires Stable(p) && Enabled(p, e) && !Reviving(e)
    ensures Stable(Step(p, e))
    ensures Spent(Step(p, e)) >= Spent(p) + (if Success(p, e) then 1 else 0)
  {
    hide Stable, Claim, Rotate, Advance, UpdateUsage, Spent;
    match e
    case Claims(id) => ClaimSpent(p, id);
    case Rotates(f, ignoreLimits) => RotateStable(p, f, ignoreLimits);
    case Advances => AdvanceStable(p);
    case UsageKnown(i, d7) => UsageStable(p, i, d7);
    case Releases(_) => OtherStable(p, Step(p, e));
    case Passes(_) => OtherStable(p, Step(p, e));
    case OtherClaims(_, _, _) => OtherStable(p, Step(p, e));
    case OtherTears(_) => OtherStable(p, Step(p, e));
    case Dies(_) => OtherStable(p, Step(p, e));
    case _ =>
  }

  lemma ClaimSpent(p: Pool, id: LeaseId)
    requires Stable(p)
    ensures Stable(Claim(p, id).pool) && Spent(Claim(p, id).pool) >= Spent(p)
  {
    hide ClaimFrom, Spent;
    var k := ClaimFromSpec(p, p, p.current, 0, id);
    var f := Claim(p, id);
    if f.index.Some? {
      var e: Pool :| Examined(p, e) && f.pool == Claimed(e, f.index.value, id);
      ExaminedDeads(p, e);
      ClaimedDeads(e, f.index.value, id);
    } else {
      ExaminedDeads(p, f.pool);
    }
    OtherStable(p, f.pool);
  }

  lemma ClaimedDeads(p: Pool, i: nat, id: LeaseId)
    requires WellFormed(p) && i < |p.accounts|
    ensures SameDeads(p, Claimed(p, i, id))
  {
  }

  // ---- runs

  function Successes(p: Pool, es: seq<Event>): nat
    requires Runs(p, es)
    decreases |es|
  {
    if es == [] then 0 else (if Success(p, es[0]) then 1 else 0) + Successes(Step(p, es[0]), es[1..])
  }

  lemma {:induction false} SuccessesAreSpent(p: Pool, es: seq<Event>)
    requires Stable(p) && Runs(p, es) && forall e :: e in es ==> !Reviving(e)
    ensures Stable(Exec(p, es)) && Spent(p) + Successes(p, es) <= Spent(Exec(p, es))
    decreases |es|
  {
    hide Stable, Step, Spent, Success, Enabled;
    if es != [] {
      StepStable(p, es[0]);
      SuccessesAreSpent(Step(p, es[0]), es[1..]);
    }
  }

  /** However many accounts can be restored at the start: while no auth file is rewritten and no account is
      declared healthy or chosen by hand, at most n-1 rotations over authentication failures succeed,
      however they are mixed with claims, releases, other rotations, usage reports and the passing of
      time. */
  lemma {:induction false} RotationEnds(p: Pool, es: seq<Event>)
    requires Stable(p) && Runs(p, es) && forall e :: e in es ==> !Reviving(e)
    requires p.accounts != []
    ensures Successes(p, es) <= |p.accounts| - 1
  {
    SuccessesAreSpent(p, es);
    SpentBelow(Exec(p, es));
  }
}
