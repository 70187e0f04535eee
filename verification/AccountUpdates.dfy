/** What every operation leaves in the fields of every account and in the lock files: which accounts are found
    alive again on the way, what happens to the one that is left, and what to the one that is taken. */
module AccountUpdates {
  import opened Basics
  import opened AccountPool
  import opened AccountSearch
  import opened AccountObstacles

  /** A dead account whose auth file is newer is healthy, without a limit; its usage and lease stay. */
  function Fresh(a: Account, d: Disk): Account {
    if Revived(a, d) then Account(false, None, None, a.d7, a.leasedUntil, a.leaseId) else a
  }

  ghost predicate Reached(p: Pool, start: nat, from: nat, to: nat, i: nat)
    requires start < |p.accounts|
  {
    exists m: nat :: from <= m < to && m < |p.accounts| && Place(p, start, m) == i
  }

  /** Only the accounts reached, at the places from one up to another, have been looked at. */
  ghost predicate LooksAt(p: Pool, q: Pool, start: nat, from: nat, to: nat)
    requires WellFormed(p) && start < |p.accounts|
  {
    && q == p.(accounts := q.accounts) && |q.accounts| == |p.accounts|
    && forall i: nat | i < |p.accounts| ::
         q.accounts[i] == if Reached(p, start, from, to, i) then Fresh(p.accounts[i], p.disk[i]) else p.accounts[i]
  }

  // ---- looking

  lemma ExamineIsFresh(p: Pool, i: nat)
    requires WellFormed(p) && i < |p.accounts|
    ensures Examine(p, i) == p.(accounts := p.accounts[i := Fresh(p.accounts[i], p.disk[i])])
  {
  }

  lemma FreshOnce(a: Account, d: Disk)
    ensures Fresh(Fresh(a, d), d) == Fresh(a, d)
  {
  }

  lemma LooksAtNone(p: Pool, start: nat, from: nat)
    requires WellFormed(p) && start < |p.accounts|
    ensures LooksAt(p, p, start, from, from)
  {
  }

  /** One more account is looked at. */
  lemma LooksOn(p: Pool, q: Pool, start: nat, from: nat, to: nat)
    requires WellFormed(p) && start < |p.accounts| && from <= to < |p.accounts| && LooksAt(p, q, start, from, to)
    ensures WellFormed(q) && LooksAt(p, Examine(q, Place(p, start, to)), start, from, to + 1)
  {
    var j := Place(p, start, to);
    ExamineIsFresh(q, j);
    FreshOnce(p.accounts[j], p.disk[j]);
    hide Place, Fresh;
    forall i: nat | i < |p.accounts|
      ensures Reached(p, start, from, to + 1, i) <==> Reached(p, start, from, to, i) || i == j
    {
      ReachedNext(p, start, from, to, i);
    }
  }

  lemma ReachedNext(p: Pool, start: nat, from: nat, to: nat, i: nat)
    requires start < |p.accounts| && from <= to < |p.accounts|
    ensures Reached(p, start, from, to + 1, i) <==> Reached(p, start, from, to, i) || i == Place(p, start, to)
  {
    hide Place;
  }

  /** The search looks at the accounts up to the one it finds, or at all. */
  lemma {:induction false} SearchLooks(p: Pool, q: Pool, start: nat, from: nat, offset: nat, ig: Ignoring)
    returns (to: nat)
    requires WellFormed(p) && start < |p.accounts| && from <= offset <= |p.accounts|
    requires LooksAt(p, q, start, from, offset) && WellFormed(q)
    ensures var f := Search(q, start, offset, ig);
            && from <= to <= |p.accounts| && LooksAt(p, f.pool, start, from, to)
            && (f.index.Some? ==> from < to && f.index.value == Place(p, start, to - 1))
            && (f.index.None? ==> to == |p.accounts|)
    decreases |p.accounts| - offset
  {
    hide LooksAt, Usable, Place, Index;
    LooksKeeps(p, q, start, from, offset);
    if offset == |p.accounts| {
      to := offset;
    } else {
      PlaceIsIndex(p, start, offset);
      assert Index(q, start, offset) == Index(p, start, offset) by { SameIndex(p, q, start, offset); }
      var i := Place(p, start, offset);
      LooksOn(p, q, start, from, offset);
      if Usable(q, i, ig) {
        to := offset + 1;
      } else {
        to := SearchLooks(p, Examine(q, i), start, from, offset + 1, ig);
      }
    }
  }

  lemma LooksKeeps(p: Pool, q: Pool, start: nat, from: nat, to: nat)
    requires WellFormed(p) && start < |p.accounts| && LooksAt(p, q, start, from, to)
    ensures |q.accounts| == |p.accounts| && WellFormed(q)
  {
  }

  lemma SameIndex(p: Pool, q: Pool, start: nat, k: nat)
    requires |q.accounts| == |p.accounts| && p.accounts != []
    ensures Index(q, start, k) == Index(p, start, k)
  {
  }

  /** Looking at all again changes nothing. */
  lemma LooksTwice(p: Pool, q: Pool, r: Pool, start: nat, from: nat, to: nat)
    requires WellFormed(p) && start < |p.accounts| && to <= |p.accounts|
    requires LooksAt(p, q, start, from, |p.accounts|) && LooksAt(q, r, start, from, to)
    ensures LooksAt(p, r, start, from, |p.accounts|)
  {
    forall i: nat | i < |p.accounts|
      ensures r.accounts[i] == q.accounts[i]
    {
      FreshOnce(p.accounts[i], p.disk[i]);
      if Reached(q, start, from, to, i) {
        var m: nat :| from <= m < to && m < |q.accounts| && Place(q, start, m) == i;
        assert Place(p, start, m) == i;
      }
    }
  }

  /** The first pass stops at the account it finds; the second one comes after all were looked at. */
  lemma {:induction false} FindNextLooks(p: Pool, start: nat, ignoreLimits: bool) returns (to: nat)
    requires WellFormed(p) && start < |p.accounts|
    ensures var f := FindNext(p, start, ignoreLimits);
            && 1 <= to <= |p.accounts| && LooksAt(p, f.pool, start, 1, to)
            && (if AllBarred(p, start, 1, |p.accounts|, ByChoice(ignoreLimits)) then to == |p.accounts|
                else f.index == Some(Place(p, start, to - 1)))
  {
    hide AllBarred, NoneAt, LooksAt, Usable, Place, Index, Search;
    var strict, lax := Ignoring(ignoreLimits, false), Ignoring(ignoreLimits, true);
    assert Ignored(strict) == ByChoice(ignoreLimits);
    BarredIsNone(p, start, 1, |p.accounts|, strict);
    LooksAtNone(p, start, 1);
    to := SearchLooks(p, p, start, 1, 1, strict);
    var f := Search(p, start, 1, strict);
    assert f.index.None? <==> NoneAt(p, start, 1, |p.accounts|, strict) by { SearchNone(p, start, strict); }
    if f.index.None? {
      LooksAtNone(f.pool, start, 1);
      var more := SearchLooks(f.pool, f.pool, start, 1, 1, lax);
      LooksTwice(p, f.pool, Search(f.pool, start, 1, lax).pool, start, 1, more);
    }
  }

  lemma SearchNone(p: Pool, start: nat, ig: Ignoring)
    requires WellFormed(p)
    ensures Search(p, start, 1, ig).index.None? <==> NoneAt(p, start, 1, |p.accounts|, ig)
  {
    ExaminedSelf(p);
    assert NoneAt(p, start, 1, 1, ig);
    hide Usable, Examined, NoneAt, FirstAt;
    var k := SearchFrom(p, p, start, 1, 1, ig);
  }

  // ---- moving on

  /** The first place from the next one on that is taken: nothing counts against it, limits aside if they are
      ignored, or else only its exhausted week. */
  ghost predicate Takes(p: Pool, start: nat, ignoreLimits: bool, i: Option<nat>)
    requires WellFormed(p) && start < |p.accounts|
  {
    var strict, lax, n := ByChoice(ignoreLimits), ByChoice(ignoreLimits) + {WeekExhausted}, |p.accounts|;
    match i
    case Some(j) =>
      exists k: nat ::
        && 1 <= k < n && j == Place(p, start, k)
        && (FirstFree(p, start, 1, k, strict)
            || (AllBarred(p, start, 1, n, strict) && FirstFree(p, start, 1, k, lax)))
    case None => AllBarred(p, start, 1, n, lax)
  }

  lemma FindNextTakes(p: Pool, start: nat, ignoreLimits: bool)
    requires WellFormed(p) && start < |p.accounts|
    ensures Takes(p, start, ignoreLimits, FindNext(p, start, ignoreLimits).index)
  {
    hide FindNext, Place, FirstFree, AllBarred;
    var k := SearchTakesFirstFree(p, start, ignoreLimits);
  }

  /** The accounts after a move away from start: those passed and the one taken have been looked at. */
  ghost predicate MovesOn(p: Pool, q: Pool, start: nat, ignoreLimits: bool, taken: Option<nat>)
    requires WellFormed(p) && start < |p.accounts|
  {
    && Takes(p, start, ignoreLimits, taken)
    && exists to: nat ::
         && 1 <= to <= |p.accounts| && LooksAt(p, q, start, 1, to)
         && (if AllBarred(p, start, 1, |p.accounts|, ByChoice(ignoreLimits)) then to == |p.accounts|
             else taken == Some(Place(p, start, to - 1)))
  }

  lemma FindNextMoves(p: Pool, start: nat, ignoreLimits: bool)
    requires WellFormed(p) && start < |p.accounts|
    ensures var f := FindNext(p, start, ignoreLimits); MovesOn(p, f.pool, start, ignoreLimits, f.index)
  {
    hide FindNext, Place, Takes, AllBarred, LooksAt;
    FindNextTakes(p, start, ignoreLimits);
    var to := FindNextLooks(p, start, ignoreLimits);
  }

  lemma MovesElsewhere(p: Pool, q: Pool, start: nat, ignoreLimits: bool, taken: Option<nat>)
    requires WellFormed(p) && start < |p.accounts| && MovesOn(p, q, start, ignoreLimits, taken)
    ensures |q.accounts| == |p.accounts| && (taken.Some? ==> taken.value < |p.accounts| && taken.value != start)
  {
    if taken.Some? {
      var k: nat :| 1 <= k < |p.accounts| && taken.value == Place(p, start, k);
    }
  }

  /** Advancing takes the next account as a search does, and leaves its limit as it was. */
  lemma AdvanceOnFields(p: Pool)
    requires WellFormed(p)
    ensures var q := Step(p, Advances);
            && q == Advance(p)
            && if |p.accounts| <= 1 then q == p
               else
                 exists moved: Pool, taken: Option<nat> ::
                   && MovesOn(p, moved, p.current, false, taken)
                   && q == moved.(current := if taken.Some? then taken.value else p.current)
  {
    hide FindNext, MovesOn;
    if |p.accounts| > 1 {
      FindNextMoves(p, p.current, false);
      var f := FindNext(p, p.current, false);
      assert MovesOn(p, f.pool, p.current, false, f.index);
    }
  }

  /** Known usage is noted on the account it is about, and only an exhausted week of the current one among several
      makes the pool move on. */
  lemma UsageOnFields(p: Pool, i: nat, d7: Option<real>)
    requires WellFormed(p)
    ensures Step(p, UsageKnown(i, d7)) == UpdateUsage(p, i, d7)
    ensures var q := UpdateUsage(p, i, d7);
            if i < |p.accounts| && d7.Some? then
              var a := p.accounts[i];
              var noted := p.(accounts := p.accounts[i := Account(a.dead, a.deadAt, a.limitedUntil, d7, a.leasedUntil,
                                                                   a.leaseId)]);
              if i != p.current || d7.value < 100.0 || |p.accounts| == 1 then q == noted
              else
                exists moved: Pool, taken: Option<nat> ::
                  && MovesOn(noted, moved, i, false, taken)
                  && q == moved.(current := if taken.Some? then taken.value else i)
            else q == p
  {
    hide FindNext, MovesOn;
    if i < |p.accounts| && d7.Some? && i == p.current && d7.value >= 100.0 && |p.accounts| > 1 {
      var noted := p.(accounts := p.accounts[i := p.accounts[i].(d7 := d7)]);
      FindNextMoves(noted, i, false);
      var f := FindNext(noted, i, false);
      MovesElsewhere(noted, f.pool, i, false, f.index);
      assert MovesOn(noted, f.pool, i, false, f.index);
    }
  }

  /** A rotation blames the current account, takes the next one as a search does, and lifts that one's limit. */
  lemma RotationOnFields(p: Pool, f: Failure, ignoreLimits: bool)
    requires WellFormed(p) && |p.accounts| > 1 && !f.PoolUnavailable?
    ensures Step(p, Rotates(f, ignoreLimits)) == Rotate(p, f, ignoreLimits).pool
    ensures var r, b := Rotate(p, f, ignoreLimits), Blame(p, f);
            exists moved: Pool, taken: Option<nat> ::
              && MovesOn(b, moved, p.current, ignoreLimits, taken) && r.ok == taken.Some?
              && (taken.None? ==> r.pool == moved)
              && (taken.Some? ==>
                    && taken.value < |moved.accounts|
                    && var a := moved.accounts[taken.value];
                       r.pool == moved.(current := taken.value,
                                        accounts := moved.accounts[taken.value := Account(
                                          a.dead, a.deadAt, None, a.d7, a.leasedUntil, a.leaseId)]))
  {
    BlameOnFields(p, f);
    hide FindNext, MovesOn, Blame;
    var b := Blame(p, f);
    FindNextMoves(b, p.current, ignoreLimits);
    var found := FindNext(b, p.current, ignoreLimits);
    MovesElsewhere(b, found.pool, p.current, ignoreLimits, found.index);
    assert MovesOn(b, found.pool, p.current, ignoreLimits, found.index);
  }

  // ---- claims and releases

  lemma {:induction false} ClaimLooks(p: Pool, q: Pool, offset: nat, id: LeaseId) returns (to: nat, e: Pool)
    requires WellFormed(p) && p.accounts != [] && offset <= |p.accounts|
    requires LooksAt(p, q, p.current, 0, offset) && WellFormed(q)
    ensures var f := ClaimFrom(q, p.current, offset, id);
            && 0 <= to <= |p.accounts| && LooksAt(p, e, p.current, 0, to)
            && (f.index.Some? ==> 0 < to && f.index.value == Place(p, p.current, to - 1)
                                  && WellFormed(e) && f.index.value < |e.accounts|
                                  && f.pool == Claimed(e, f.index.value, id))
            && (f.index.None? ==> to == |p.accounts| && f.pool == e)
    decreases |p.accounts| - offset
  {
    hide LooksAt, Claimable, Claimed, Place, Index;
    LooksKeeps(p, q, p.current, 0, offset);
    if offset == |p.accounts| {
      to, e := offset, q;
    } else {
      PlaceIsIndex(p, p.current, offset);
      SameIndex(p, q, p.current, offset);
      var i := Place(p, p.current, offset);
      LooksOn(p, q, p.current, 0, offset);
      if Claimable(q, i) {
        to, e := offset + 1, Examine(q, i);
        LooksKeeps(p, e, p.current, 0, to);
      } else {
        to, e := ClaimLooks(p, Examine(q, i), offset + 1, id);
      }
    }
  }

  /** A claim looks at the accounts up to the one it takes, from the current one on; that one and its lock file
      carry the new lease of this process for two hours. */
  lemma ClaimOnFields(p: Pool, id: LeaseId) returns (to: nat, e: Pool)
    requires WellFormed(p) && p.accounts != []
    ensures FreshLease(p, id) ==> Step(p, Claims(id)) == Claim(p, id).pool
    ensures var f, until := Claim(p, id), p.now + 2 * 60 * 60 * 1000;
            && to <= |p.accounts| && LooksAt(p, e, p.current, 0, to)
            && (f.index.None? ==> to == |p.accounts| && f.pool == e)
            && (f.index.Some? ==>
                  var i := f.index.value;
                  && 0 < to && i == Place(p, p.current, to - 1) && i < |e.accounts| == |e.disk|
                  && var a := e.accounts[i];
                     f.pool == e.(
                       current := i,
                       accounts := e.accounts[i := Account(
                         a.dead, a.deadAt, a.limitedUntil, a.d7, Some(until), Some(id))],
                       disk := e.disk[i := Disk(e.disk[i].mtime, Held(Lock(Some(id), Some(p.self), Some(until))))],
                       leases := p.leases + [Lease(id, i, p.self, until, false)]))
  {
    LooksAtNone(p, p.current, 0);
    to, e := ClaimLooks(p, p, 0, id);
    assert e == p.(accounts := e.accounts) && |e.accounts| == |p.accounts|;
    hide LooksAt, ClaimFrom, Place, Claimed, Step;
    if FreshLease(p, id) {
      StepClaims(p, id);
    }
    if Claim(p, id).index.Some? {
      ClaimedForm(e, Claim(p, id).index.value, id);
    }
  }

  lemma StepClaims(p: Pool, id: LeaseId)
    requires Enabled(p, Claims(id))
    ensures Step(p, Claims(id)) == Claim(p, id).pool
  {
  }

  lemma ClaimedForm(p: Pool, i: nat, id: LeaseId)
    requires WellFormed(p) && i < |p.accounts|
    ensures var a, until := p.accounts[i], p.now + 2 * 60 * 60 * 1000;
            Claimed(p, i, id) == p.(
              current := i,
              accounts := p.accounts[i := Account(a.dead, a.deadAt, a.limitedUntil, a.d7, Some(until), Some(id))],
              disk := p.disk[i := Disk(p.disk[i].mtime, Held(Lock(Some(id), Some(p.self), Some(until))))],
              leases := p.leases + [Lease(id, i, p.self, until, false)])
  {
  }

  /** A release forgets the lease in memory only where it is still the one remembered, and removes the lock file
      only where that does not name another lease. */
  lemma ReleaseOnFields(p: Pool, k: nat)
    requires Enabled(p, Releases(k))
    ensures var l := p.leases[k];
            var i, q := l.account, Step(p, Releases(k));
            && |q.accounts| == |p.accounts| && |q.disk| == |p.disk| && |q.leases| == |p.leases|
            && q == p.(accounts := q.accounts, disk := q.disk, leases := q.leases)
            && (forall j :: 0 <= j < |p.accounts| ==>
                  var a := p.accounts[j];
                  q.accounts[j] == if j == i && l.pid == p.self && a.leaseId == Some(l.id)
                                   then Account(a.dead, a.deadAt, a.limitedUntil, a.d7, None, None) else a)
            && (forall j :: 0 <= j < |p.disk| ==>
                  var d := p.disk[j];
                  q.disk[j] == if j == i && !(d.lock.Held? && d.lock.lock.leaseId.Some?
                                              && d.lock.lock.leaseId.value != l.id)
                               then Disk(d.mtime, Absent) else d)
            && (forall m :: 0 <= m < |p.leases| ==>
                  var r := p.leases[m];
                  q.leases[m] == Lease(r.id, r.account, r.pid, r.until, r.released || r.id == l.id))
  {
  }

  // ---- the current account

  /** A success takes away what only a failure has put in the way of the current account: afterwards it is neither
      dead nor limited, and everything else stays. */
  lemma SuccessOnFields(p: Pool)
    requires WellFormed(p) && p.accounts != []
    ensures Step(p, Succeeds) == MarkHealthy(p)
    ensures var q, a, b := MarkHealthy(p), p.accounts[p.current], MarkHealthy(p).accounts[p.current];
            && q == p.(accounts := p.accounts[p.current := b])
            && b == a.(dead := false, deadAt := b.deadAt, limitedUntil := None)
            && b.deadAt == (if a.dead then None else a.deadAt)
            && !Bars(q, p.current, DeadAuth) && !Bars(q, p.current, RateLimited)
            && (forall o: Obstacle :: !o.DeadAuth? && !o.RateLimited? ==>
                  (Bars(q, p.current, o) <==> Bars(p, p.current, o)))
  {
  }

  /** Switching to another account lifts its limit and nothing else that speaks against it. */
  lemma SwitchOnFields(p: Pool, i: nat)
    requires WellFormed(p)
    ensures Step(p, Switches(i)) == SwitchTo(p, i)
    ensures var q := SwitchTo(p, i);
            if i < |p.accounts| && i != p.current then
              && q == p.(current := i, accounts := p.accounts[i := p.accounts[i].(limitedUntil := None)])
              && !Bars(q, i, RateLimited)
              && (forall o: Obstacle :: !o.RateLimited? ==> (Bars(q, i, o) <==> Bars(p, i, o)))
            else q == p
  {
  }

  // ---- the disk

  /** What other processes and the clock change: nothing in the accounts, and on the disk only what they say. */
  lemma OthersOnFields(p: Pool, e: Event)
    requires Enabled(p, e)
    requires e.Passes? || e.AuthRewritten? || e.OtherClaims? || e.OtherTears? || e.Dies?
    ensures var q := Step(p, e);
            && q.accounts == p.accounts && q.current == p.current && q.self == p.self && |q.disk| == |p.disk|
            && q.now == p.now + (if e.Passes? then e.ms else 0)
            && q.alive == p.alive - (if e.Dies? then {e.pid} else {})
            && (forall j :: 0 <= j < |p.disk| ==>
                  && q.disk[j].mtime == (if e.AuthRewritten? && e.account == j then p.now else p.disk[j].mtime)
                  && q.disk[j].lock == (
                     if e.OtherClaims? && e.account == j then
                       Held(Lock(Some(e.id), Some(e.pid), Some(p.now + 2 * 60 * 60 * 1000)))
                     else if e.OtherTears? && e.account == j then Corrupt
                     else p.disk[j].lock))
            && q.leases == p.leases + (if e.OtherClaims? then
                                         [Lease(e.id, e.account, e.pid, p.now + 2 * 60 * 60 * 1000, false)] else [])
  {
  }
}
