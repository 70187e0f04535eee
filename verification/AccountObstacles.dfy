/** What a search, a rotation and a claim take and pass over, said on the fields of the accounts and the disk
    alone. */
module AccountObstacles {
  import opened Basics
  import opened AccountPool
  import opened AccountSearch

  /** What can speak against an account: it needs to be authenticated again, is rate limited, has used up its
      week, is leased in this process, or is locked by a living process. */
  datatype Obstacle = DeadAuth | RateLimited | WeekExhausted | Leased | Locked

  /** The auth file was written after the account was found dead, which makes it a new one. */
  predicate Revived(a: Account, d: Disk) {
    a.dead && a.deadAt.Some? && a.deadAt.value != 0 && d.mtime > a.deadAt.value
  }

  /** The lock names no time that is over and no process that is gone. */
  predicate HoldsStill(p: Pool, l: Lock) {
    && !(l.expiresAt.Some? && l.expiresAt.value != 0 && l.expiresAt.value <= p.now)
    && !(l.pid.Some? && l.pid.value != 0 && l.pid.value !in p.alive)
  }

  predicate Bars(p: Pool, i: nat, o: Obstacle)
    requires i < |p.accounts| && i < |p.disk|
  {
    var a, d := p.accounts[i], p.disk[i];
    match o
    case DeadAuth => a.dead && !Revived(a, d)
    case RateLimited => !Revived(a, d) && a.limitedUntil.Some? && a.limitedUntil.value > p.now
    case WeekExhausted => a.d7.Some? && a.d7.value >= 100.0
    case Leased => a.leasedUntil.Some? && a.leasedUntil.value > p.now
    case Locked => d.lock.Held? && HoldsStill(p, d.lock.lock)
  }

  /** Nothing but what is ignored speaks against the account. */
  predicate Free(p: Pool, i: nat, ignored: set<Obstacle>)
    requires i < |p.accounts| && i < |p.disk|
  {
    forall o: Obstacle :: Bars(p, i, o) ==> o in ignored
  }

  function Ignored(ig: Ignoring): set<Obstacle> {
    (if ig.limits then {RateLimited} else {}) + (if ig.d7 then {WeekExhausted} else {})
  }

  lemma UsableIsFree(p: Pool, i: nat, ig: Ignoring)
    requires WellFormed(p) && i < |p.accounts|
    ensures Usable(p, i, ig) <==> Free(p, i, Ignored(ig))
  {
    assert Usable(p, i, ig) <==>
      && !Bars(p, i, DeadAuth) && (ig.limits || !Bars(p, i, RateLimited)) && (ig.d7 || !Bars(p, i, WeekExhausted))
      && !Bars(p, i, Leased) && !Bars(p, i, Locked);
    hide Usable, Bars;
    if Usable(p, i, ig) {
      forall o: Obstacle | Bars(p, i, o) ensures o in Ignored(ig) {
        match o
        case RateLimited =>
        case WeekExhausted =>
        case _ =>
      }
    }
  }

  /** The account k places after the starting one, the last in the list being followed by the first. */
  function Place(p: Pool, start: nat, k: nat): (i: nat)
    requires start < |p.accounts| && k < |p.accounts|
    ensures i < |p.accounts|
  {
    if start + k < |p.accounts| then start + k else start + k - |p.accounts|
  }

  lemma WrapsOnce(x: nat, n: nat)
    requires n <= x < 2 * n
    ensures x % n == x - n
  {
    assert x == 1 * n + (x - n);
  }

  lemma PlaceIsIndex(p: Pool, start: nat, k: nat)
    requires start < |p.accounts| && k < |p.accounts|
    ensures Index(p, start, k) == Place(p, start, k)
  {
    if start + k >= |p.accounts| {
      WrapsOnce(start + k, |p.accounts|);
    }
  }

  /** Every account from one place up to another has an obstacle that is not ignored. */
  ghost predicate AllBarred(p: Pool, start: nat, from: nat, to: nat, ignored: set<Obstacle>)
    requires WellFormed(p) && start < |p.accounts| && to <= |p.accounts|
  {
    forall m: nat :: from <= m < to ==> !Free(p, Place(p, start, m), ignored)
  }

  /** The account at the place is the first one from there on against which nothing counts. */
  ghost predicate FirstFree(p: Pool, start: nat, from: nat, k: nat, ignored: set<Obstacle>)
    requires WellFormed(p) && start < |p.accounts|
  {
    && from <= k < |p.accounts| && Free(p, Place(p, start, k), ignored)
    && AllBarred(p, start, from, k, ignored)
  }

  lemma BarredIsNone(p: Pool, start: nat, from: nat, to: nat, ig: Ignoring)
    requires WellFormed(p) && start < |p.accounts| && to <= |p.accounts|
    ensures NoneAt(p, start, from, to, ig) <==> AllBarred(p, start, from, to, Ignored(ig))
  {
    hide Usable, Free, Place, Index;
    forall m: nat | from <= m < to
      ensures Usable(p, Index(p, start, m), ig) <==> Free(p, Place(p, start, m), Ignored(ig))
    {
      PlaceIsIndex(p, start, m);
      UsableIsFree(p, Index(p, start, m), ig);
    }
  }

  lemma FirstIsFree(p: Pool, start: nat, from: nat, k: nat, ig: Ignoring)
    requires WellFormed(p) && start < |p.accounts|
    ensures FirstAt(p, start, from, k, ig) <==> FirstFree(p, start, from, k, Ignored(ig))
  {
    hide Usable, Free, Place, Index, NoneAt, AllBarred;
    if from <= k < |p.accounts| {
      PlaceIsIndex(p, start, k);
      UsableIsFree(p, Index(p, start, k), ig);
      BarredIsNone(p, start, from, k, ig);
    }
  }

  /** What limits are ignored by choice. */
  function ByChoice(ignoreLimits: bool): set<Obstacle> {
    if ignoreLimits then {RateLimited} else {}
  }

  /** The search takes the first other account against which nothing speaks, limits aside if they are ignored;
      if every other one has an obstacle, the first that has none but an exhausted week; and none exactly
      when each has another obstacle than that. */
  lemma {:induction false} SearchTakesFirstFree(p: Pool, start: nat, ignoreLimits: bool) returns (k: nat)
    requires WellFormed(p) && start < |p.accounts|
    ensures var f, n := FindNext(p, start, ignoreLimits), |p.accounts|;
            var strict, lax := ByChoice(ignoreLimits), ByChoice(ignoreLimits) + {WeekExhausted};
            && (f.index.Some? ==>
                  && 1 <= k < n && f.index.value == Place(p, start, k)
                  && (|| FirstFree(p, start, 1, k, strict)
                      || (AllBarred(p, start, 1, n, strict) && FirstFree(p, start, 1, k, lax))))
            && (f.index.None? <==> AllBarred(p, start, 1, n, lax))
  {
    hide FindNext, FirstAt, NoneAt, FirstFree, AllBarred, Examined, Place, Index;
    k := FindNextSpec(p, start, ignoreLimits);
    var strict, lax := Ignoring(ignoreLimits, false), Ignoring(ignoreLimits, true);
    assert Ignored(strict) == ByChoice(ignoreLimits);
    assert Ignored(lax) == ByChoice(ignoreLimits) + {WeekExhausted};
    FirstIsFree(p, start, 1, k, strict);
    FirstIsFree(p, start, 1, k, lax);
    BarredIsNone(p, start, 1, |p.accounts|, strict);
    BarredIsNone(p, start, 1, |p.accounts|, lax);
    FirstInRange(p, start, k, strict);
    FirstInRange(p, start, k, lax);
    if 1 <= k < |p.accounts| {
      PlaceIsIndex(p, start, k);
    }
  }

  lemma FirstInRange(p: Pool, start: nat, k: nat, ig: Ignoring)
    requires WellFormed(p)
    ensures FirstAt(p, start, 1, k, ig) ==> 1 <= k < |p.accounts|
  {
  }

  // ---- rotation

  /** What the failure that causes a rotation does to the account that is left. */
  lemma BlameOnFields(p: Pool, f: Failure)
    requires WellFormed(p) && p.accounts != []
    ensures var q, a, b := Blame(p, f), p.accounts[p.current], Blame(p, f).accounts[p.current];
            && |q.accounts| == |p.accounts| && q.disk == p.disk && q.current == p.current && q.now == p.now
            && (forall i :: 0 <= i < |p.accounts| && i != p.current ==> q.accounts[i] == p.accounts[i])
            && (f.PoolUnavailable? ==> b == a)
            && (f.AuthExpired? ==> b.dead && b.deadAt == Some(p.now) && b.limitedUntil.None? && b.d7 == a.d7
                                   && b.leasedUntil.None? && b.leaseId.None?)
            && (f.Limited? ==> b == a.(limitedUntil := Some(f.until)))
  {
  }

  /** A rotation moves to the first other account against which nothing speaks once the current one is blamed,
      an exhausted week counting only while another account has one left; it stays exactly when each other
      account has an obstacle. The account it takes keeps its usage and has its limit lifted. */
  lemma {:induction false} RotationTakesFirstFree(p: Pool, f: Failure, ignoreLimits: bool) returns (k: nat)
    requires WellFormed(p) && |p.accounts| > 1 && !f.PoolUnavailable?
    ensures var r, b, n := Rotate(p, f, ignoreLimits), Blame(p, f), |p.accounts|;
            var strict, lax := ByChoice(ignoreLimits), ByChoice(ignoreLimits) + {WeekExhausted};
            && (r.ok ==>
                  && 1 <= k < n && r.pool.current == Place(p, p.current, k)
                  && (|| FirstFree(b, p.current, 1, k, strict)
                      || (AllBarred(b, p.current, 1, n, strict) && FirstFree(b, p.current, 1, k, lax)))
                  && r.pool.accounts[r.pool.current].limitedUntil.None?
                  && r.pool.accounts[r.pool.current].d7 == p.accounts[r.pool.current].d7)
            && (!r.ok <==> AllBarred(b, p.current, 1, n, lax))
            && (!r.ok ==> r.pool.current == p.current)
  {
    hide FindNext, FirstFree, AllBarred, Place;
    var b := Blame(p, f);
    BlameOnFields(p, f);
    k := SearchTakesFirstFree(b, p.current, ignoreLimits);
    var j := FindNextSpec(b, p.current, ignoreLimits);
    hide Blame, Chosen, NoneAt, Examined;
    if FindNext(b, p.current, ignoreLimits).index.Some? {
      PlaceMoves(p, k);
      assert Place(b, p.current, k) == Place(p, p.current, k) by { SamePlace(p, b, p.current, k); }
    }
  }

  lemma SamePlace(p: Pool, q: Pool, start: nat, k: nat)
    requires |q.accounts| == |p.accounts| && start < |p.accounts| && k < |p.accounts|
    ensures Place(q, start, k) == Place(p, start, k)
  {
  }

  lemma PlaceMoves(p: Pool, k: nat)
    requires p.current < |p.accounts| && 1 <= k < |p.accounts|
    ensures Place(p, p.current, k) != p.current
  {
  }

  // ---- claims

  /** Nothing at all speaks against the account, and its lock file can be created or taken over. */
  predicate FreeToClaim(p: Pool, i: nat)
    requires i < |p.accounts| && i < |p.disk|
  {
    Free(p, i, {}) && !p.disk[i].lock.Corrupt?
  }

  ghost predicate NoneFreeToClaim(p: Pool, to: nat)
    requires WellFormed(p) && to <= |p.accounts|
  {
    forall m: nat :: m < to ==> !FreeToClaim(p, Place(p, p.current, m))
  }

  lemma ClaimableIsFree(p: Pool, i: nat)
    requires WellFormed(p) && i < |p.accounts|
    ensures Claimable(p, i) <==> FreeToClaim(p, i)
  {
    UsableClaimable(p, i);
    UsableIsFree(p, i, Ignoring(false, false));
    assert Ignored(Ignoring(false, false)) == {};
    hide Usable, Claimable, Free;
  }

  /** A claim leases the first account from the current one on against which nothing speaks and whose lock file
      is readable, and none exactly when there is none: never one that is limited, or has used up its week. */
  lemma {:induction false} ClaimTakesFirstFree(p: Pool, id: LeaseId) returns (k: nat)
    requires WellFormed(p)
    ensures var f := Claim(p, id);
            && (f.index.Some? ==>
                  && k < |p.accounts| && f.index.value == Place(p, p.current, k) == f.pool.current
                  && FreeToClaim(p, f.index.value) && NoneFreeToClaim(p, k))
            && (f.index.None? <==> NoneFreeToClaim(p, |p.accounts|))
  {
    hide Claimable, FreeToClaim, Place, Index;
    k := ClaimSpec(p, id);
    forall m: nat | m < |p.accounts|
      ensures Claimable(p, Index(p, p.current, m)) <==> FreeToClaim(p, Place(p, p.current, m))
    {
      PlaceIsIndex(p, p.current, m);
      ClaimableIsFree(p, Index(p, p.current, m));
    }
    hide Claim;
    if Claim(p, id).index.Some? {
      PlaceIsIndex(p, p.current, k);
      ClaimableIsFree(p, Index(p, p.current, k));
    }
  }
}
