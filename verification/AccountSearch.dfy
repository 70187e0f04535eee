/** What the circular search, rotation and claiming find, and that rotation comes to an end. */
module AccountSearch {
  import opened Basics
  import opened AccountPool

  // ---- examining changes nothing that a later look depends on

  ghost predicate Examined(p: Pool, q: Pool)
    requires WellFormed(p)
  {
    && q == p.(accounts := q.accounts) && |q.accounts| == |p.accounts|
    && forall i :: 0 <= i < |p.accounts| ==>
         q.accounts[i] == p.accounts[i] || q.accounts[i] == Restored(p.accounts[i], p.disk[i].mtime)
  }

  lemma ExaminedUsable(p: Pool, q: Pool, i: nat, ig: Ignoring)
    requires WellFormed(p) && Examined(p, q) && i < |p.accounts|
    ensures Usable(q, i, ig) == Usable(p, i, ig)
    ensures Restored(q.accounts[i], p.disk[i].mtime) == Restored(p.accounts[i], p.disk[i].mtime)
  {
  }

  /** The least offset from `from` on at which the account is usable. */
  ghost predicate FirstAt(p: Pool, start: nat, from: nat, k: nat, ig: Ignoring)
    requires WellFormed(p)
  {
    && from <= k < |p.accounts| && Usable(p, Index(p, start, k), ig)
    && NoneAt(p, start, from, k, ig)
  }

  ghost predicate NoneAt(p: Pool, start: nat, from: nat, to: nat, ig: Ignoring)
    requires WellFormed(p)
  {
    forall m: nat :: from <= m < to && m < |p.accounts| ==> !Usable(p, Index(p, start, m), ig)
  }

  lemma {:induction false} SearchFrom(p: Pool, q: Pool, start: nat, from: nat, offset: nat, ig: Ignoring)
    returns (k: nat)
    requires WellFormed(p) && Examined(p, q) && from <= offset && NoneAt(p, start, from, offset, ig)
    ensures var f := Search(q, start, offset, ig);
            && Examined(p, f.pool)
            && (f.index.Some? <==> FirstAt(p, start, from, k, ig))
            && (f.index.Some? ==>
                  && f.index.value == Index(p, start, k)
                  && f.pool.accounts[f.index.value]
                     == Restored(p.accounts[f.index.value], p.disk[f.index.value].mtime))
            && (f.index.None? <==> NoneAt(p, start, from, |p.accounts|, ig))
    decreases |p.accounts| - offset
  {
    k := offset;
    if offset < |p.accounts| {
      var i := Index(p, start, offset);
      ExaminedUsable(p, q, i, ig);
      if !Usable(p, i, ig) {
        k := SearchFrom(p, Examine(q, i), start, from, offset + 1, ig);
      }
    }
  }

  lemma IndexOther(p: Pool, start: nat, k: nat)
    requires start < |p.accounts| && 1 <= k < |p.accounts|
    ensures Index(p, start, k) != start
  {
    if start + k >= |p.accounts| {
      assert (start + k) % |p.accounts| == start + k - |p.accounts|;
    }
  }

  lemma OffsetOf(p: Pool, start: nat, i: nat) returns (k: nat)
    requires start < |p.accounts| && i < |p.accounts| && i != start
    ensures 1 <= k < |p.accounts| && Index(p, start, k) == i
  {
    k := if i > start then i - start else i + |p.accounts| - start;
    if i < start {
      assert (start + k) % |p.accounts| == start + k - |p.accounts|;
    }
  }

  lemma UsableWeakly(p: Pool, i: nat, ignoreLimits: bool)
    requires WellFormed(p) && i < |p.accounts| && Usable(p, i, Ignoring(ignoreLimits, false))
    ensures Usable(p, i, Ignoring(ignoreLimits, true))
  {
  }

  /** The search returns the account at the least circular offset in 1..n-1 that is usable; if there is
      none, the least that is usable when exhausted weekly limits are ignored; and nothing exactly when
      no other account is usable even then. */
  lemma {:induction false} FindNextSpec(p: Pool, start: nat, ignoreLimits: bool) returns (k: nat)
    requires WellFormed(p) && start < |p.accounts|
    ensures var f := FindNext(p, start, ignoreLimits);
            && Examined(p, f.pool)
            && (f.index.Some? ==>
                  && f.index.value == Index(p, start, k) != start
                  && Chosen(p, start, k, ignoreLimits)
                  && f.pool.accounts[f.index.value]
                     == Restored(p.accounts[f.index.value], p.disk[f.index.value].mtime))
            && (f.index.None? <==> NoneAt(p, start, 1, |p.accounts|, Ignoring(ignoreLimits, true)))
  {
    hide Usable, Examined, Search;
    var strict, lax := Ignoring(ignoreLimits, false), Ignoring(ignoreLimits, true);
    ExaminedSelf(p);
    k := SearchFrom(p, p, start, 1, 1, strict);
    var f := Search(p, start, 1, strict);
    if f.index.None? {
      k := SearchFrom(p, f.pool, start, 1, 1, lax);
    } else {
      UsableWeakly(p, Index(p, start, k), ignoreLimits);
    }
    if 1 <= k < |p.accounts| {
      IndexOther(p, start, k);
    }
  }

  lemma ExaminedSelf(p: Pool)
    requires WellFormed(p)
    ensures Examined(p, p)
  {
  }

  // ---- rotation

  /** The offset the search stops at. */
  ghost predicate Chosen(p: Pool, start: nat, k: nat, ignoreLimits: bool)
    requires WellFormed(p)
  {
    || FirstAt(p, start, 1, k, Ignoring(ignoreLimits, false))
    || (&& NoneAt(p, start, 1, |p.accounts|, Ignoring(ignoreLimits, false))
        && FirstAt(p, start, 1, k, Ignoring(ignoreLimits, true)))
  }

  /** Rotation succeeds exactly when another account is usable after the current one is blamed, weekly
      limits aside. It then moves to a different account that is alive, not leased and not locked,
      and lifts that account's limit; otherwise the current account stays. */
  lemma {:induction false} RotateSpec(p: Pool, f: Failure, ignoreLimits: bool) returns (k: nat)
    requires WellFormed(p)
    ensures var r := Rotate(p, f, ignoreLimits);
            if |p.accounts| <= 1 || f.PoolUnavailable? then !r.ok && r.pool == p
            else
              var blamed := Blame(p, f);
              && (r.ok <==> exists i: nat :: OtherUsable(blamed, i, ignoreLimits))
              && (r.ok ==>
                    && Chosen(blamed, p.current, k, ignoreLimits)
                    && r.pool.current == Index(p, p.current, k) != p.current
                    && Sound(r.pool) && r.pool.accounts[r.pool.current].limitedUntil.None?)
              && (!r.ok ==> r.pool.current == p.current && Examined(blamed, r.pool))
              && r.pool.disk == p.disk && r.pool.leases == p.leases
  {
    k := 0;
    if |p.accounts| > 1 && !f.PoolUnavailable? {
      var blamed := Blame(p, f);
      hide Usable;
      k := FindNextSpec(blamed, p.current, ignoreLimits);
      var next := FindNext(blamed, p.current, ignoreLimits);
      if next.index.Some? {
        SoundIfUsable(blamed, p.current, k, ignoreLimits);
        assert OtherUsable(blamed, next.index.value, ignoreLimits);
      } else {
        forall i: nat ensures !OtherUsable(blamed, i, ignoreLimits) {
          if i < |p.accounts| && i != p.current {
            var m := OffsetOf(blamed, p.current, i);
          }
        }
      }
    }
  }

  predicate OtherUsable(p: Pool, i: nat, ignoreLimits: bool)
    requires WellFormed(p)
  {
    i < |p.accounts| && i != p.current && Usable(p, i, Ignoring(ignoreLimits, true))
  }

  /** The current account is alive, not leased and not locked. */
  predicate Sound(p: Pool)
    requires WellFormed(p) && p.accounts != []
  {
    var a := p.accounts[p.current];
    !a.dead && !After(a.leasedUntil, p.now) && Unlocked(p, p.disk[p.current].lock)
  }

  lemma SoundIfUsable(p: Pool, start: nat, k: nat, ignoreLimits: bool)
    requires WellFormed(p) && start < |p.accounts|
    requires FirstAt(p, start, 1, k, Ignoring(ignoreLimits, false))
          || FirstAt(p, start, 1, k, Ignoring(ignoreLimits, true))
    ensures var i := Index(p, start, k);
            var a := Restored(p.accounts[i], p.disk[i].mtime);
            && Usable(p, i, Ignoring(ignoreLimits, true))
            && !a.dead && !After(a.leasedUntil, p.now) && Unlocked(p, p.disk[i].lock)
  {
  }

  // ---- claiming

  ghost predicate NoneClaimable(p: Pool, start: nat, from: nat, to: nat)
    requires WellFormed(p)
  {
    forall m: nat :: from <= m < to && m < |p.accounts| ==> !Claimable(p, Index(p, start, m))
  }

  lemma ExaminedClaimable(p: Pool, q: Pool, i: nat)
    requires WellFormed(p) && Examined(p, q) && i < |p.accounts|
    ensures Claimable(q, i) == Claimable(p, i) && Examined(p, Examine(q, i))
  {
    hide Usable;
    ExaminedUsable(p, q, i, Ignoring(false, false));
  }

  lemma {:induction false} ClaimFromSpec(p: Pool, q: Pool, start: nat, offset: nat, id: LeaseId)
    returns (k: nat)
    requires WellFormed(p) && Examined(p, q)
    ensures var f := ClaimFrom(q, start, offset, id);
            && (f.index.None? <==> NoneClaimable(p, start, offset, |p.accounts|))
            && (f.index.None? ==> Examined(p, f.pool))
            && (f.index.Some? ==>
                  && offset <= k < |p.accounts| && f.index.value == Index(p, start, k)
                  && Claimable(p, f.index.value)
                  && NoneClaimable(p, start, offset, k)
                  && exists e: Pool :: Examined(p, e) && f.pool == Claimed(e, f.index.value, id))
    decreases |p.accounts| - offset
  {
    hide Claimable, Claimed;
    k := offset;
    if offset < |p.accounts| {
      var i := Index(p, start, offset);
      ExaminedClaimable(p, q, i);
      if !Claimable(p, i) {
        k := ClaimFromSpec(p, Examine(q, i), start, offset + 1, id);
      }
    }
  }

  /** A claim leases the first account from the current one on that is usable and whose lock can be
      acquired; it fails exactly when there is none. */
  lemma {:induction false} ClaimSpec(p: Pool, id: LeaseId) returns (k: nat)
    requires WellFormed(p)
    ensures var f := Claim(p, id);
            && (f.index.None? <==> NoneClaimable(p, p.current, 0, |p.accounts|))
            && (f.index.None? ==> Examined(p, f.pool))
            && (f.index.Some? ==>
                  && k < |p.accounts| && f.index.value == Index(p, p.current, k) == f.pool.current
                  && Claimable(p, f.index.value)
                  && NoneClaimable(p, p.current, 0, k)
                  && f.pool.leases == p.leases + [Lease(id, f.index.value, p.self, p.now + LEASE_MS, false)])
  {
    k := ClaimFromSpec(p, p, p.current, 0, id);
  }

  // ---- corrupt lock files

  /** A corrupt lock file does not keep a search away from its account, and it keeps every claim away: the
      account a search returns can be leased exactly when its lock file is not corrupt and none of its
      limits had to be ignored. */
  lemma ChosenIsClaimableUnlessCorrupt(p: Pool, start: nat, ignoreLimits: bool)
    requires WellFormed(p) && start < |p.accounts|
    ensures var f := FindNext(p, start, ignoreLimits);
            f.index.Some? ==>
              var i := f.index.value;
              Claimable(f.pool, i) <==> !p.disk[i].lock.Corrupt? && Usable(p, i, Ignoring(false, false))
  {
    var k := FindNextSpec(p, start, ignoreLimits);
    hide FindNext, FirstAt, NoneAt, Chosen;
    var f := FindNext(p, start, ignoreLimits);
    if f.index.Some? {
      ExaminedUsable(p, f.pool, f.index.value, Ignoring(false, false));
      UsableClaimable(f.pool, f.index.value);
    }
  }

  /** A usable account can be claimed exactly when its lock file is not corrupt. */
  lemma UsableClaimable(p: Pool, i: nat)
    requires WellFormed(p) && i < |p.accounts|
    ensures Claimable(p, i)
            <==> Usable(p, i, Ignoring(false, false)) && !p.disk[i].lock.Corrupt?
  {
  }

  /** The step is the release of a lease on account i. */
  predicate ReleaseOn(p: Pool, e: Event, i: nat) {
    e.Releases? && e.k < |p.leases| && p.leases[e.k].account == i
  }

  /** q has the leases of p, and the others it has are not on account i. */
  ghost predicate NoneAdded(p: Pool, q: Pool, i: nat) {
    && |p.leases| <= |q.leases|
    && forall k :: 0 <= k < |q.leases| ==>
         if k < |p.leases| then q.leases[k].account == p.leases[k].account else q.leases[k].account != i
  }

  lemma CorruptNotClaimed(p: Pool, i: nat, id: LeaseId)
    requires WellFormed(p) && i < |p.accounts| && p.disk[i].lock.Corrupt?
    ensures Claim(p, id).index != Some(i)
    ensures var q := Claim(p, id).pool; q.disk[i].lock.Corrupt? && NoneAdded(p, q, i)
  {
    hide Usable, ClaimFrom;
    var k := ClaimFromSpec(p, p, p.current, 0, id);
  }

  /** A step ends the corruption exactly when it releases a lease on the account, and none leases it. */
  lemma CorruptUntilReleased(p: Pool, e: Event, i: nat)
    requires Enabled(p, e) && i < |p.accounts| && p.disk[i].lock.Corrupt?
    ensures var q := Step(p, e);
            (q.disk[i].lock.Corrupt? <==> !ReleaseOn(p, e, i)) && NoneAdded(p, q, i)
  {
    hide Claim, Rotate, Advance, UpdateUsage, Stale;
    if e.Claims? {
      CorruptNotClaimed(p, i, e.id);
    }
  }

  ghost predicate NeverReleased(p: Pool, es: seq<Event>, i: nat)
    requires Runs(p, es)
    decreases |es|
  {
    es == [] || (!ReleaseOn(p, es[0], i) && NeverReleased(Step(p, es[0]), es[1..], i))
  }

  /** Until a lease on it is released, an account with a corrupt lock file is never leased, by any process
      and in any run. */
  lemma {:induction false} CorruptLockIsNeverLeased(p: Pool, es: seq<Event>, i: nat)
    requires WellFormed(p) && Runs(p, es) && i < |p.accounts| && p.disk[i].lock.Corrupt?
    requires NeverReleased(p, es, i)
    ensures var q := Exec(p, es);
            WellFormed(q) && q.disk[i].lock.Corrupt? && NoneAdded(p, q, i)
    decreases |es|
  {
    hide Step, Enabled, ReleaseOn;
    if es != [] {
      CorruptUntilReleased(p, es[0], i);
      CorruptLockIsNeverLeased(Step(p, es[0]), es[1..], i);
    }
  }

  /** Two accounts, the second with a corrupt lock file: a rotation succeeds in moving to it, and no account
      can then be claimed. */
  lemma RotationChoosesCorrupt(id: LeaseId) returns (p: Pool)
    ensures WellFormed(p)
    ensures var r := Rotate(p, AuthExpired, false);
            && r.ok && r.pool.current == 1 && r.pool.disk[1].lock.Corrupt?
            && Usable(r.pool, 1, Ignoring(false, false)) && Claim(r.pool, id).index.None?
  {
    var a := Account(false, None, None, None, None, None);
    p := Pool([a, a], [Disk(0, Absent), Disk(0, Corrupt)], 0, 1, 0, {0}, []);
    var blamed := MarkDead(p, 0);
    assert Usable(blamed, 1, Ignoring(false, false)) && Index(blamed, 0, 1) == 1;
    var q := Rotate(p, AuthExpired, false).pool;
    assert q == Examine(blamed, 1).(current := 1);
    hide Rotate;
    var k := ClaimSpec(q, id);
    assert !Claimable(q, 0) && !Claimable(q, 1);
  }
}
