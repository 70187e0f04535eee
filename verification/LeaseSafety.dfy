/** No account is ever leased twice at a time, whatever the processes do to accounts and lock files. */
module LeaseSafety {
  import opened Basics
  import opened AccountPool
  import opened AccountSearch

  /** A lease that is neither released nor run out, of a process that is alive. */
  predicate Live(p: Pool, l: Lease) {
    !l.released && l.until > p.now && l.pid in p.alive
  }

  predicate Guards(f: LockFile, l: Lease) {
    f == Held(Lock(Some(l.id), Some(l.pid), Some(l.until)))
  }

  /** Every live lease is guarded by the lock file of its account. */
  ghost predicate Guarded(p: Pool) {
    && |p.disk| == |p.accounts|
    && (forall k :: 0 <= k < |p.leases| ==> p.leases[k].account < |p.disk|)
    && (forall k :: 0 <= k < |p.leases| && Live(p, p.leases[k]) ==>
          Guards(p.disk[p.leases[k].account].lock, p.leases[k]))
  }

  ghost predicate DistinctIds(ls: seq<Lease>) {
    forall j, k :: 0 <= j < k < |ls| ==> ls[j].id != ls[k].id
  }

  ghost predicate LockInv(p: Pool) {
    WellFormed(p) && Guarded(p) && DistinctIds(p.leases)
  }

  /** Two live leases are of different accounts. */
  lemma LiveLeasesExclude(p: Pool, j: nat, k: nat)
    requires LockInv(p) && j < |p.leases| && k < |p.leases| && j != k
    requires Live(p, p.leases[j]) && Live(p, p.leases[k])
    ensures p.leases[j].account != p.leases[k].account
  {
  }

  lemma GuardedNotAcquirable(p: Pool, k: nat)
    requires LockInv(p) && k < |p.leases| && Live(p, p.leases[k])
    ensures !Acquirable(p, p.disk[p.leases[k].account].lock)
  {
  }

  // ---- steps

  /** A new lease on an account whose lock could be acquired. */
  lemma NewLeaseLocks(p: Pool, q: Pool, i: nat, l: Lease)
    requires LockInv(p) && i < |p.disk| && Acquirable(p, p.disk[i].lock)
    requires WellFormed(q) && |q.accounts| == |p.accounts| && q.now == p.now && q.alive == p.alive
    requires l.account == i && FreshLease(p, l.id) && q.leases == p.leases + [l]
    requires q.disk == p.disk[i := q.disk[i]] && Guards(q.disk[i].lock, l)
    ensures LockInv(q)
  {
    hide Stale;
    forall k | 0 <= k < |q.leases| && Live(q, q.leases[k])
      ensures Guards(q.disk[q.leases[k].account].lock, q.leases[k])
    {
      if k < |p.leases| {
        GuardedNotAcquirable(p, k);
      }
    }
    assert forall k :: 0 <= k < |p.leases| ==> p.leases[k] in p.leases;
  }

  lemma ClaimLocks(p: Pool, id: LeaseId)
    requires LockInv(p) && FreshLease(p, id)
    ensures LockInv(Claim(p, id).pool) && |Claim(p, id).pool.leases| >= |p.leases|
  {
    hide Usable, Acquirable;
    var k := ClaimFromSpec(p, p, p.current, 0, id);
    var f := ClaimFrom(p, p.current, 0, id);
    if f.index.Some? {
      NewLeaseLocks(p, f.pool, f.index.value, Lease(id, f.index.value, p.self, p.now + LEASE_MS, false));
    }
  }

  /** Releasing a lease leaves the lock of every other live lease as it is. */
  lemma ReleaseLockKeeps(p: Pool, k: nat, j: nat)
    requires LockInv(p) && k < |p.leases| && j < |p.leases| && j != k && Live(p, p.leases[j])
    ensures var l := p.leases[k];
            var i := p.leases[j].account;
            ReleaseLock(p, l.account, l.id).disk[i] == p.disk[i]
  {
  }

  lemma ReleasedLeases(ls: seq<Lease>, k: nat)
    requires k < |ls| && DistinctIds(ls)
    ensures Released(ls, ls[k].id) == ls[k := ls[k].(released := true)]
    ensures DistinctIds(ls[k := ls[k].(released := true)])
  {
  }

  lemma ReleaseLocks(p: Pool, k: nat)
    requires LockInv(p) && k < |p.leases|
    ensures LockInv(Step(p, Releases(k)))
  {
    var l := p.leases[k];
    var q := Step(p, Releases(k));
    ReleasedLeases(p.leases, k);
    hide Unlock;
    assert q.disk == ReleaseLock(p, l.account, l.id).disk;
    forall j | 0 <= j < |q.leases| && Live(q, q.leases[j])
      ensures Guards(q.disk[q.leases[j].account].lock, q.leases[j])
    {
      ReleaseLockKeeps(p, k, j);
    }
  }

  /** Steps that touch neither locks nor leases. */
  lemma SameLocks(p: Pool, q: Pool)
    requires LockInv(p) && WellFormed(q) && q.leases == p.leases && |q.accounts| == |p.accounts|
    requires q.now >= p.now && q.alive <= p.alive
    requires forall i :: 0 <= i < |p.disk| ==> q.disk[i].lock == p.disk[i].lock
    ensures LockInv(q)
  {
    assert forall k :: 0 <= k < |q.leases| && Live(q, q.leases[k]) ==> Live(p, p.leases[k]);
  }

  lemma TearLocks(p: Pool, i: nat)
    requires LockInv(p) && Enabled(p, OtherTears(i))
    ensures LockInv(Step(p, OtherTears(i)))
  {
    var q := Step(p, OtherTears(i));
    forall k | 0 <= k < |q.leases| && Live(q, q.leases[k])
      ensures Guards(q.disk[q.leases[k].account].lock, q.leases[k])
    {
      GuardedNotAcquirable(p, k);
    }
  }

  lemma StepLocks(p: Pool, e: Event)
    requires LockInv(p) && Enabled(p, e)
    ensures LockInv(Step(p, e)) && |Step(p, e).leases| >= |p.leases|
  {
    hide Claim, Rotate, Advance, UpdateUsage, Guarded, DistinctIds;
    match e
    case Claims(id) => ClaimLocks(p, id);
    case Releases(k) => ReleaseLocks(p, k);
    case OtherClaims(i, pid, id) =>
      NewLeaseLocks(p, ForeignClaim(p, i, pid, id), i, Lease(id, i, pid, p.now + LEASE_MS, false));
    case OtherTears(i) => TearLocks(p, i);
    case _ => SameLocks(p, Step(p, e));
  }

  lemma {:induction false} ReachableLocks(p: Pool, es: seq<Event>)
    requires LockInv(p) && Runs(p, es)
    ensures LockInv(Exec(p, es)) && |Exec(p, es).leases| >= |p.leases|
    decreases |es|
  {
    hide LockInv, Step, Enabled;
    if es != [] {
      StepLocks(p, es[0]);
      ReachableLocks(Step(p, es[0]), es[1..]);
    }
  }

  // ---- what the process remembers

  /** A later lease on an account finds every earlier one at its end. */
  ghost predicate OnlyLatestLive(p: Pool) {
    forall j, k :: 0 <= j < k < |p.leases| && p.leases[j].account == p.leases[k].account ==> !Live(p, p.leases[j])
  }

  /** Lease k is the latest of this process on account i. */
  predicate LatestOwn(p: Pool, i: nat, k: nat) {
    && k < |p.leases| && p.leases[k].account == i && p.leases[k].pid == p.self
    && forall m :: k < m < |p.leases| && p.leases[m].account == i ==> p.leases[m].pid != p.self
  }

  /** A lease remembered for an account is the latest of this process on it. */
  ghost predicate Remembers(p: Pool) {
    forall i: nat :: i < |p.accounts| && p.accounts[i].leaseId.Some? ==>
      exists k: nat :: LatestOwn(p, i, k) && p.leases[k].id == p.accounts[i].leaseId.value
  }

  ghost predicate Inv(p: Pool) {
    LockInv(p) && OnlyLatestLive(p) && Remembers(p)
  }

  /** The leases stay, are released or run out. */
  ghost predicate Ages(p: Pool, q: Pool) {
    && q.self == p.self && q.now >= p.now && q.alive <= p.alive && |q.leases| == |p.leases|
    && forall k :: 0 <= k < |p.leases| ==>
         q.leases[k] == p.leases[k] || q.leases[k] == p.leases[k].(released := true)
  }

  /** Nothing new is remembered. */
  ghost predicate Forgets(p: Pool, q: Pool) {
    && |q.accounts| == |p.accounts|
    && forall i :: 0 <= i < |p.accounts| ==>
         q.accounts[i].leaseId == p.accounts[i].leaseId || q.accounts[i].leaseId.None?
  }

  lemma AgesKeeps(p: Pool, q: Pool)
    requires Ages(p, q) && Forgets(p, q) && OnlyLatestLive(p) && Remembers(p)
    ensures OnlyLatestLive(q) && Remembers(q)
  {
    forall i: nat | i < |q.accounts| && q.accounts[i].leaseId.Some?
      ensures exists k: nat :: LatestOwn(q, i, k) && q.leases[k].id == q.accounts[i].leaseId.value
    {
      var k: nat :| LatestOwn(p, i, k) && p.leases[k].id == p.accounts[i].leaseId.value;
      assert LatestOwn(q, i, k);
    }
  }

  /** A new lease on an account whose lock could be acquired. */
  lemma NewestIsLive(p: Pool, q: Pool, l: Lease)
    requires LockInv(p) && OnlyLatestLive(p) && l.account < |p.disk| && Acquirable(p, p.disk[l.account].lock)
    requires q.now == p.now && q.alive == p.alive && q.leases == p.leases + [l]
    ensures OnlyLatestLive(q)
  {
    hide Acquirable, Live;
    forall j, k | 0 <= j < k < |q.leases| && q.leases[j].account == q.leases[k].account
      ensures !Live(q, q.leases[j])
    {
      NotLiveKept(p, q, p.leases[j]);
      if k == |p.leases| && Live(p, p.leases[j]) {
        GuardedNotAcquirable(p, j);
      }
    }
  }

  lemma NotLiveKept(p: Pool, q: Pool, l: Lease)
    requires q.now == p.now && q.alive == p.alive
    ensures Live(q, l) == Live(p, l)
  {
  }

  lemma ForeignLeaseRemembers(p: Pool, q: Pool, l: Lease)
    requires Remembers(p) && q.leases == p.leases + [l] && l.pid != p.self && q.self == p.self
    requires q.accounts == p.accounts
    ensures Remembers(q)
  {
    forall i: nat | i < |q.accounts| && q.accounts[i].leaseId.Some?
      ensures exists k: nat :: LatestOwn(q, i, k) && q.leases[k].id == q.accounts[i].leaseId.value
    {
      var k: nat :| LatestOwn(p, i, k) && p.leases[k].id == p.accounts[i].leaseId.value;
      assert LatestOwn(q, i, k);
    }
  }

  lemma OwnLeaseRemembers(p: Pool, q: Pool, l: Lease)
    requires Remembers(p) && |q.accounts| == |p.accounts| && q.self == p.self
    requires l.pid == p.self && l.account < |p.accounts| && q.leases == p.leases + [l]
    requires forall i :: 0 <= i < |p.accounts| ==>
               q.accounts[i].leaseId == if i == l.account then Some(l.id) else p.accounts[i].leaseId
    ensures Remembers(q)
  {
    forall i: nat | i < |q.accounts| && q.accounts[i].leaseId.Some?
      ensures exists k: nat :: LatestOwn(q, i, k) && q.leases[k].id == q.accounts[i].leaseId.value
    {
      if i == l.account {
        assert LatestOwn(q, i, |p.leases|);
      } else {
        var k: nat :| LatestOwn(p, i, k) && p.leases[k].id == p.accounts[i].leaseId.value;
        assert LatestOwn(q, i, k);
      }
    }
  }

  lemma ClaimMemory(p: Pool, id: LeaseId)
    requires Inv(p)
    ensures OnlyLatestLive(Claim(p, id).pool) && Remembers(Claim(p, id).pool)
  {
    hide Usable, Acquirable, Guarded, DistinctIds, OnlyLatestLive, Remembers, ClaimFrom;
    var k := ClaimFromSpec(p, p, p.current, 0, id);
    var f := Claim(p, id);
    if f.index.Some? {
      var l := Lease(id, f.index.value, p.self, p.now + LEASE_MS, false);
      NewestIsLive(p, f.pool, l);
      OwnLeaseRemembers(p, f.pool, l);
    } else {
      AgesKeeps(p, f.pool);
    }
  }

  lemma SearchForgets(p: Pool, start: nat, ignoreLimits: bool)
    requires WellFormed(p) && start < |p.accounts|
    ensures Forgets(p, FindNext(p, start, ignoreLimits).pool)
  {
    hide FindNext, Chosen, NoneAt;
    var k := FindNextSpec(p, start, ignoreLimits);
  }

  lemma RotateForgets(p: Pool, f: Failure, ignoreLimits: bool)
    requires WellFormed(p)
    ensures Forgets(p, Rotate(p, f, ignoreLimits).pool)
  {
    hide FindNext;
    if |p.accounts| > 1 && !f.PoolUnavailable? {
      SearchForgets(Blame(p, f), p.current, ignoreLimits);
    }
  }

  lemma AdvanceForgets(p: Pool)
    requires WellFormed(p)
    ensures Forgets(p, Advance(p))
  {
    hide FindNext;
    if |p.accounts| > 1 {
      SearchForgets(p, p.current, false);
    }
  }

  lemma UsageForgets(p: Pool, i: nat, d7: Option<real>)
    requires WellFormed(p)
    ensures Forgets(p, UpdateUsage(p, i, d7))
  {
    hide FindNext;
    if i < |p.accounts| {
      SearchForgets(p.(accounts := p.accounts[i := p.accounts[i].(d7 := d7)]), i, false);
    }
  }

  lemma StepAges(p: Pool, e: Event)
    requires LockInv(p) && Enabled(p, e) && !e.Claims? && !e.OtherClaims?
    ensures Ages(p, Step(p, e)) && Forgets(p, Step(p, e))
  {
    hide Claim, Rotate, Advance, UpdateUsage, Guarded, DistinctIds;
    match e
    case Rotates(f, ignoreLimits) => RotateForgets(p, f, ignoreLimits);
    case Advances => AdvanceForgets(p);
    case UsageKnown(i, d7) => UsageForgets(p, i, d7);
    case _ =>
  }

  lemma StepInv(p: Pool, e: Event)
    requires Inv(p) && Enabled(p, e)
    ensures Inv(Step(p, e)) && |Step(p, e).leases| >= |p.leases|
  {
    hide LockInv, Claim, OnlyLatestLive, Remembers, Rotate, Advance, UpdateUsage;
    StepLocks(p, e);
    match e
    case Claims(id) => ClaimMemory(p, id);
    case OtherClaims(i, pid, id) =>
      var l := Lease(id, i, pid, p.now + LEASE_MS, false);
      NewestIsLive(p, ForeignClaim(p, i, pid, id), l);
      ForeignLeaseRemembers(p, ForeignClaim(p, i, pid, id), l);
    case _ =>
      StepAges(p, e);
      AgesKeeps(p, Step(p, e));
  }

  lemma {:induction false} ReachableInv(p: Pool, es: seq<Event>)
    requires Inv(p) && Runs(p, es)
    ensures Inv(Exec(p, es)) && |Exec(p, es).leases| >= |p.leases|
    decreases |es|
  {
    hide Inv, Step, Enabled;
    if es != [] {
      StepInv(p, es[0]);
      ReachableInv(Step(p, es[0]), es[1..]);
    }
  }

  // ---- the guarantees

  /** Over any run that starts without leases, no two live leases are ever of the same account. */
  lemma Exclusive(p: Pool, es: seq<Event>, j: nat, k: nat)
    requires WellFormed(p) && p.leases == [] && Runs(p, es)
    requires var q := Exec(p, es);
             && j < |q.leases| && k < |q.leases| && j != k
             && Live(q, q.leases[j]) && Live(q, q.leases[k])
    ensures Exec(p, es).leases[j].account != Exec(p, es).leases[k].account
  {
    assert LockInv(p);
    hide *;
    ReachableLocks(p, es);
    LiveLeasesExclude(Exec(p, es), j, k);
  }

  /** What is remembered is not an earlier lease than a live one of this process on the same account. */
  lemma RememberedIsLive(p: Pool, k: nat, j: nat)
    requires Inv(p) && k < |p.leases| && j < |p.leases| && j != k && Live(p, p.leases[j])
    requires p.leases[j].pid == p.self && p.leases[k].account == p.leases[j].account
    ensures p.accounts[p.leases[j].account].leaseId != Some(p.leases[k].id)
  {
    var i := p.leases[j].account;
    if p.accounts[i].leaseId.Some? {
      var m: nat :| LatestOwn(p, i, m) && p.leases[m].id == p.accounts[i].leaseId.value;
      assert j <= m;
      assert m == j;
    }
  }

  /** Releasing a lease, however late, frees nothing of its successors: every other live lease stays live
      and guarded. When that lease is of this process, what is remembered of its account stays as it is;
      when it is of another one, the lease that is released is all that can be forgotten. */
  lemma ReleaseFreesOnlyItself(p: Pool, k: nat, j: nat)
    requires Inv(p) && k < |p.leases| && j < |p.leases| && j != k && Live(p, p.leases[j])
    ensures var q := Step(p, Releases(k));
            var l, i := p.leases[j], p.leases[j].account;
            && q.leases[j] == l && Live(q, l) && Guards(q.disk[i].lock, l)
            && (l.pid == p.self || p.accounts[i].leaseId != Some(p.leases[k].id) ==>
                  q.accounts[i] == p.accounts[i])
            && !Acquirable(q, q.disk[i].lock)
  {
    ReleasedLeases(p.leases, k);
    ReleaseLockKeeps(p, k, j);
    ReleaseLocks(p, k);
    if p.leases[j].pid == p.self && p.leases[k].account == p.leases[j].account {
      RememberedIsLive(p, k, j);
    }
    hide Unlock, ReleaseLock;
    GuardedNotAcquirable(Step(p, Releases(k)), j);
  }

  /** In particular over any run of a process that starts with nothing leased and nothing remembered. */
  lemma SuccessorsKeepTheirLease(p: Pool, es: seq<Event>, k: nat, j: nat)
    requires WellFormed(p) && p.leases == [] && forall a :: a in p.accounts ==> a.leaseId.None?
    requires Runs(p, es)
    requires var q := Exec(p, es);
             k < |q.leases| && j < |q.leases| && j != k && Live(q, q.leases[j]) && q.leases[j].pid == q.self
    ensures var q := Exec(p, es);
            var i := q.leases[j].account;
            && Enabled(q, Releases(k)) && i < |q.accounts|
            && Step(q, Releases(k)).accounts[i] == q.accounts[i]
            && Step(q, Releases(k)).disk[i] == q.disk[i]
  {
    assert Inv(p);
    hide Inv, Step;
    ReachableInv(p, es);
    var q := Exec(p, es);
    InvEnables(q, k);
    ReleaseKeepsAccount(q, k, j);
  }

  lemma InvEnables(p: Pool, k: nat)
    requires Inv(p) && k < |p.leases|
    ensures Enabled(p, Releases(k))
  {
  }

  lemma ReleaseKeepsAccount(p: Pool, k: nat, j: nat)
    requires Inv(p) && k < |p.leases| && j < |p.leases| && j != k && Live(p, p.leases[j])
    requires p.leases[j].pid == p.self
    ensures var i := p.leases[j].account;
            var q := Step(p, Releases(k));
            i < |p.accounts| && q.accounts[i] == p.accounts[i] && q.disk[i] == p.disk[i]
  {
    hide Unlock;
    ReleaseFreesOnlyItself(p, k, j);
    ReleaseLockKeeps(p, k, j);
  }

  /** A lease that is released frees its account's lock if it still holds it. */
  lemma ReleaseFreesItself(p: Pool, k: nat)
    requires LockInv(p) && k < |p.leases|
    ensures var l := p.leases[k];
            var q := Step(p, Releases(k));
            && q.leases[k].released
            && (Live(p, l) ==> q.disk[l.account].lock.Absent?)
            && (l.pid == p.self && p.accounts[l.account].leaseId == Some(l.id) ==>
                  q.accounts[l.account].leaseId.None? && q.accounts[l.account].leasedUntil.None?)
  {
    ReleasedLeases(p.leases, k);
  }

  /** A live lease keeps every claim off its account, also when the account was marked dead, forgot the
      lease and had its auth file refreshed since. */
  lemma LiveLeaseBlocksClaims(p: Pool, id: LeaseId, j: nat)
    requires LockInv(p) && j < |p.leases| && Live(p, p.leases[j])
    ensures Claim(p, id).index != Some(p.leases[j].account)
  {
    GuardedNotAcquirable(p, j);
    hide Usable, Live, Guarded, DistinctIds;
    var k := ClaimFromSpec(p, p, p.current, 0, id);
  }
}
