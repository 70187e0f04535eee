/** The account pool as the process keeps it: an array of accounts updated in place beside the disk. */
module CodexPool {
  import opened Basics
  import opened AccountPool

  class CodexAccounts {
    /** The accounts in memory; the disk, which other processes share, is an array beside them. */
    const accounts: array<Account>
    const disk: array<Disk>
    const self: Pid
    var currentIndex: nat
    var now: nat
    var alive: set<Pid>
    ghost var leases: seq<Lease>

    ghost function View(): Pool
      reads this, accounts, disk
    {
      Pool(accounts[..], disk[..], currentIndex, now, self, alive, leases)
    }

    ghost predicate Valid()
      reads this, accounts, disk
    {
      WellFormed(View())
    }

    constructor (accounts: array<Account>, disk: array<Disk>, self: Pid, now: nat, alive: set<Pid>)
      requires accounts.Length == disk.Length && self in alive
      ensures Valid() && View() == Pool(accounts[..], disk[..], 0, now, self, alive, [])
      ensures this.accounts == accounts && this.disk == disk
    {
      this.accounts, this.disk, this.self := accounts, disk, self;
      currentIndex, this.now, this.alive, leases := 0, now, alive, [];
    }

    // ---- usability

    predicate RunOut(l: Lock)
      reads this, accounts, disk
      ensures RunOut(l) == Stale(View(), l)
    {
      var expired := l.expiresAt.Some? && l.expiresAt.value != 0 && l.expiresAt.value <= now;
      var deadPid := l.pid.Some? && l.pid.value != 0 && l.pid.value !in alive;
      expired || deadPid
    }

    method RestoreDeadAuthIfAuthFileChanged(i: nat)
      requires Valid() && i < accounts.Length
      modifies accounts
      ensures Valid() && View() == Examine(old(View()), i)
    {
      var a := accounts[i];
      if !a.dead || a.deadAt.None? || a.deadAt.value == 0 {
        assert accounts[..] == accounts[..][i := a];
        return;
      }
      if disk[i].mtime <= a.deadAt.value {
        assert accounts[..] == accounts[..][i := a];
        return;
      }
      accounts[i] := a.(dead := false, deadAt := None, limitedUntil := None);
    }

    method IsCodexAccountUsable(i: nat, ig: Ignoring) returns (usable: bool)
      requires Valid() && i < accounts.Length
      modifies accounts
      ensures Valid() && View() == Examine(old(View()), i)
      ensures usable == old(Usable(View(), i, ig))
    {
      RestoreDeadAuthIfAuthFileChanged(i);
      var a := accounts[i];
      assert a == old(Restored(accounts[i], disk[i].mtime));
      if a.dead {
        return false;
      }
      if !ig.limits && a.limitedUntil.Some? && a.limitedUntil.value > now {
        return false;
      }
      if !ig.d7 && a.d7.Some? && a.d7.value >= 100.0 {
        return false;
      }
      if a.leasedUntil.Some? && a.leasedUntil.value > now {
        return false;
      }
      var lock := disk[i].lock;
      return !lock.Held? || RunOut(lock.lock);
    }

    // ---- the search

    method SearchFrom(start: nat, ig: Ignoring) returns (found: Option<nat>)
      requires Valid()
      modifies accounts
      ensures Valid() && Found(View(), found) == Search(old(View()), start, 1, ig)
    {
      hide Usable, Examine;
      var n := accounts.Length;
      var i := 1;
      while i < n
        invariant Valid() && 1 <= i
        invariant View() == old(View()).(accounts := accounts[..])
        invariant Search(View(), start, i, ig) == Search(old(View()), start, 1, ig)
      {
        var idx := (start + i) % n;
        assert idx == Index(View(), start, i);
        var usable := IsCodexAccountUsable(idx, ig);
        if usable {
          return Some(idx);
        }
        i := i + 1;
      }
      return None;
    }

    method FindNextCodexAvailable(start: nat, ignoreLimits: bool) returns (found: Option<nat>)
      requires Valid()
      modifies accounts
      ensures Valid() && Found(View(), found) == FindNext(old(View()), start, ignoreLimits)
    {
      hide Search;
      found := SearchFrom(start, Ignoring(ignoreLimits, false));
      if found.None? {
        found := SearchFrom(start, Ignoring(ignoreLimits, true));
      }
    }

    // ---- leases

    /** One attempt to create the lock file or take it over. */
    method TryAcquireDiskLease(i: nat, id: LeaseId) returns (ok: bool)
      requires Valid() && i < disk.Length
      modifies disk
      ensures Valid() && ok == old(Acquirable(View(), disk[i].lock))
      ensures ok ==> View() == old(View()).(
                disk := old(disk[..])[i := old(disk[i]).(lock := NewLock(old(View()), id))])
      ensures !ok ==> View() == old(View())
    {
      var lock := disk[i].lock;
      ok := lock.Absent? || (lock.Held? && RunOut(lock.lock));
      if ok {
        disk[i] := disk[i].(lock := Held(Lock(Some(id), Some(self), Some(now + LEASE_MS))));
      }
    }

    method ClaimCodexAuthLease(id: LeaseId) returns (leased: Option<nat>)
      requires Valid()
      modifies this`currentIndex, this`leases, accounts, disk
      ensures Valid() && Found(View(), leased) == Claim(old(View()), id)
    {
      hide Usable, Examine, Acquirable, NewLock;
      var n, start := accounts.Length, currentIndex;
      var offset := 0;
      while offset < n
        invariant Valid() && currentIndex == start && disk[..] == old(disk[..]) && leases == old(leases)
        invariant ClaimFrom(View(), start, offset, id) == ClaimFrom(old(View()), start, 0, id)
      {
        var idx := (start + offset) % n;
        assert idx == Index(View(), start, offset);
        ghost var p := View();
        assert Claimable(p, idx) == (Usable(p, idx, Ignoring(false, false)) && Acquirable(p, p.disk[idx].lock));
        var usable := IsCodexAccountUsable(idx, Ignoring(false, false));
        if usable {
          ExamineLock(p, idx);
          var ok := TryAcquireDiskLease(idx, id);
          if ok {
            RecordLease(idx, id);
            return Some(idx);
          }
        }
        offset := offset + 1;
      }
      return None;
    }

    lemma ExamineLock(p: Pool, i: nat)
      requires WellFormed(p) && i < |p.accounts|
      ensures Acquirable(Examine(p, i), p.disk[i].lock) == Acquirable(p, p.disk[i].lock)
      ensures Examine(p, i).disk == p.disk
    {
    }

    /** The lock is ours: remember the lease. */
    method RecordLease(i: nat, id: LeaseId)
      requires Valid() && i < accounts.Length
      modifies this`currentIndex, this`leases, accounts
      ensures Valid()
      ensures View() == old(View()).(
                current := i,
                accounts := old(accounts[..])[
                  i := old(accounts[i]).(leasedUntil := Some(now + LEASE_MS), leaseId := Some(id))],
                leases := old(leases) + [Lease(id, i, self, now + LEASE_MS, false)])
    {
      currentIndex := i;
      accounts[i] := accounts[i].(leasedUntil := Some(now + LEASE_MS), leaseId := Some(id));
      leases := leases + [Lease(id, i, self, now + LEASE_MS, false)];
    }

    /** The release function handed out with a lease. */
    method ReleaseLease(i: nat, id: LeaseId)
      requires Valid() && i < accounts.Length
      modifies this`leases, accounts, disk
      ensures Valid() && View() == Release(old(View()), i, id)
    {
      hide Released;
      leases := Released(leases, id);
      var a := accounts[i];
      if a.leaseId == Some(id) {
        accounts[i] := a.(leasedUntil := None, leaseId := None);
      }
      assert accounts[..] == old(accounts[..])[i := accounts[i]];
      ReleaseDiskLease(i, id);
    }

    method ReleaseDiskLease(i: nat, id: LeaseId)
      requires Valid() && i < disk.Length
      modifies disk
      ensures Valid() && View() == ReleaseLock(old(View()), i, id)
    {
      var lock := disk[i].lock;
      if !(lock.Held? && lock.lock.leaseId.Some? && lock.lock.leaseId.value != id) {
        disk[i] := disk[i].(lock := Absent);
      }
      assert disk[..] == old(disk[..])[i := disk[i]];
    }

    // ---- rotation

    method MarkCodexAccountDeadAuth(i: nat)
      requires Valid() && i < accounts.Length
      modifies accounts
      ensures Valid() && View() == MarkDead(old(View()), i)
    {
      accounts[i] := accounts[i].(dead := true, deadAt := Some(now), limitedUntil := None,
                                  leasedUntil := None, leaseId := None);
    }

    method SetRateLimit(i: nat, until: Option<nat>)
      requires Valid() && i < accounts.Length
      modifies accounts
      ensures Valid() && View() == SetLimit(old(View()), i, until)
    {
      accounts[i] := accounts[i].(limitedUntil := until);
    }

    method RotateCodexToken(failure: Failure, ignoreLimits: bool) returns (ok: bool)
      requires Valid()
      modifies this`currentIndex, accounts
      ensures Valid() && Rotated(View(), ok) == Rotate(old(View()), failure, ignoreLimits)
    {
      hide FindNext, MarkDead, SetLimit;
      if accounts.Length <= 1 || failure.PoolUnavailable? {
        return false;
      }
      if failure.AuthExpired? {
        MarkCodexAccountDeadAuth(currentIndex);
      } else {
        SetRateLimit(currentIndex, Some(failure.until));
      }
      assert View() == Blame(old(View()), failure);
      var next := FindNextCodexAvailable(currentIndex, ignoreLimits);
      if next.None? {
        return false;
      }
      SetRateLimit(next.value, None);
      currentIndex := next.value;
      return true;
    }

    method AdvanceCodexAccount()
      requires Valid()
      modifies this`currentIndex, accounts
      ensures Valid() && View() == Advance(old(View()))
    {
      hide FindNext;
      if accounts.Length <= 1 {
        return;
      }
      var next := FindNextCodexAvailable(currentIndex, false);
      if next.Some? {
        currentIndex := next.value;
      }
    }

    method UpdateCodexAccountUsage(i: nat, d7: Option<real>)
      requires Valid()
      modifies this`currentIndex, accounts
      ensures Valid() && View() == UpdateUsage(old(View()), i, d7)
    {
      hide FindNext;
      if i >= accounts.Length || d7.None? {
        return;
      }
      accounts[i] := accounts[i].(d7 := d7);
      assert accounts[..] == old(accounts[..])[i := accounts[i]];
      if i == currentIndex && d7.value >= 100.0 && accounts.Length > 1 {
        var next := FindNextCodexAvailable(i, false);
        if next.Some? && next.value != i {
          currentIndex := next.value;
        }
      }
    }

    method MarkCodexTokenHealthy()
      requires Valid()
      modifies accounts
      ensures Valid() && View() == MarkHealthy(old(View()))
    {
      if accounts.Length == 0 {
        return;
      }
      var a := accounts[currentIndex];
      if a.dead {
        a := a.(dead := false, deadAt := None);
      }
      if a.limitedUntil.Some? {
        a := a.(limitedUntil := None);
      }
      accounts[currentIndex] := a;
      assert accounts[..] == old(accounts[..])[currentIndex := a];
    }

    /** Returns false where the index is out of range. */
    method SetCurrentCodexAccountIndex(i: nat) returns (ok: bool)
      requires Valid()
      modifies this`currentIndex, accounts
      ensures Valid() && View() == SwitchTo(old(View()), i) && ok == (i < accounts.Length)
    {
      ok := i < accounts.Length;
      if !ok || i == currentIndex {
        return;
      }
      currentIndex := i;
      SetRateLimit(i, None);
    }
  }
}
