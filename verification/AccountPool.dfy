/** The pool of accounts: which account is usable, the circular search, leases with lock files, and
    rotation, as steps of one process's state and the disk. */
module AccountPool {
  import opened Basics

  type LeaseId = nat
  type Pid = nat

  /** dead: the account needs to be authenticated again; deadAt is when that was found. */
  datatype Account = Account(
    dead: bool, deadAt: Option<nat>, limitedUntil: Option<nat>, d7: Option<real>,
    leasedUntil: Option<nat>, leaseId: Option<LeaseId>)

  /** Absent fields of a lock are None. */
  datatype Lock = Lock(leaseId: Option<LeaseId>, pid: Option<Pid>, expiresAt: Option<nat>)

  /** A lock file that cannot be parsed is corrupt. */
  datatype LockFile = Absent | Corrupt | Held(lock: Lock)

  /** What the disk holds for an account: the time its auth file was last written, and its lock file. */
  datatype Disk = Disk(mtime: nat, lock: LockFile)

  datatype Lease = Lease(id: LeaseId, account: nat, pid: Pid, until: nat, released: bool)

  const LEASE_MS: nat := 2 * 60 * 60000

  /** leases is the history of all leases given, also by other processes. */
  datatype Pool = Pool(
    accounts: seq<Account>, disk: seq<Disk>, current: nat, now: nat, self: Pid, alive: set<Pid>,
    leases: seq<Lease>)

  predicate WellFormed(p: Pool) {
    && |p.accounts| == |p.disk| && p.self in p.alive
    && (p.accounts != [] ==> p.current < |p.accounts|)
  }

  // ---- usability

  /** A dead account whose auth file was rewritten since is healthy again. */
  function Restored(a: Account, mtime: nat): Account {
    if a.dead && a.deadAt.Some? && 0 < a.deadAt.value < mtime then
      a.(dead := false, deadAt := None, limitedUntil := None)
    else a
  }

  predicate After(t: Option<nat>, now: nat) {
    t.Some? && t.value > now
  }

  /** A lock that has run out, or whose process is gone, can be taken over. */
  predicate Stale(p: Pool, l: Lock) {
    || (l.expiresAt.Some? && 0 < l.expiresAt.value <= p.now)
    || (l.pid.Some? && l.pid.value != 0 && l.pid.value !in p.alive)
  }

  predicate Unlocked(p: Pool, f: LockFile) {
    f.Held? ==> Stale(p, f.lock)
  }

  datatype Ignoring = Ignoring(limits: bool, d7: bool)

  predicate Usable(p: Pool, i: nat, ig: Ignoring)
    requires WellFormed(p) && i < |p.accounts|
  {
    var a := Restored(p.accounts[i], p.disk[i].mtime);
    && !a.dead
    && (ig.limits || !After(a.limitedUntil, p.now))
    && (ig.d7 || a.d7.None? || a.d7.value < 100.0)
    && !After(a.leasedUntil, p.now)
    && Unlocked(p, p.disk[i].lock)
  }

  /** Examining an account restores it if it can be. */
  function Examine(p: Pool, i: nat): Pool
    requires WellFormed(p) && i < |p.accounts|
  {
    p.(accounts := p.accounts[i := Restored(p.accounts[i], p.disk[i].mtime)])
  }

  // ---- the circular search

  function Index(p: Pool, start: nat, offset: nat): (i: nat)
    requires p.accounts != []
    ensures i < |p.accounts|
  {
    (start + offset) % |p.accounts|
  }

  datatype Found = Found(pool: Pool, index: Option<nat>)

  function Search(p: Pool, start: nat, offset: nat, ig: Ignoring): (f: Found)
    requires WellFormed(p)
    ensures WellFormed(f.pool) && |f.pool.accounts| == |p.accounts|
    ensures f.pool == p.(accounts := f.pool.accounts)
    ensures f.index.Some? ==> f.index.value < |p.accounts|
    decreases |p.accounts| - offset
  {
    if offset >= |p.accounts| then Found(p, None)
    else
      var i := Index(p, start, offset);
      if Usable(p, i, ig) then Found(Examine(p, i), Some(i))
      else Search(Examine(p, i), start, offset + 1, ig)
  }

  /** Two passes over the other accounts: the second one ignores exhausted weekly limits. */
  function FindNext(p: Pool, start: nat, ignoreLimits: bool): (f: Found)
    requires WellFormed(p)
    ensures WellFormed(f.pool) && |f.pool.accounts| == |p.accounts|
    ensures f.pool == p.(accounts := f.pool.accounts)
    ensures f.index.Some? ==> f.index.value < |p.accounts|
  {
    var f := Search(p, start, 1, Ignoring(ignoreLimits, false));
    if f.index.Some? then f else Search(f.pool, start, 1, Ignoring(ignoreLimits, true))
  }

  // ---- leases

  function NewLock(p: Pool, id: LeaseId): LockFile {
    Held(Lock(Some(id), Some(p.self), Some(p.now + LEASE_MS)))
  }

  /** The lock is created, or taken over when stale. A corrupt one can be neither. */
  predicate Acquirable(p: Pool, f: LockFile) {
    f.Absent? || (f.Held? && Stale(p, f.lock))
  }

  predicate Claimable(p: Pool, i: nat)
    requires WellFormed(p) && i < |p.accounts|
  {
    Usable(p, i, Ignoring(false, false)) && Acquirable(p, p.disk[i].lock)
  }

  function Claimed(p: Pool, i: nat, id: LeaseId): Pool
    requires WellFormed(p) && i < |p.accounts|
  {
    var until := p.now + LEASE_MS;
    p.(disk := p.disk[i := p.disk[i].(lock := NewLock(p, id))],
       current := i,
       accounts := p.accounts[i := p.accounts[i].(leasedUntil := Some(until), leaseId := Some(id))],
       leases := p.leases + [Lease(id, i, p.self, until, false)])
  }

  function ClaimFrom(p: Pool, start: nat, offset: nat, id: LeaseId): (f: Found)
    requires WellFormed(p)
    ensures WellFormed(f.pool) && |f.pool.accounts| == |p.accounts|
    ensures f.index.Some? ==> f.index.value < |p.accounts|
    decreases |p.accounts| - offset
  {
    if offset >= |p.accounts| then Found(p, None)
    else
      var i := Index(p, start, offset);
      var q := Examine(p, i);
      if Claimable(p, i) then
        Found(Claimed(q, i, id), Some(i))
      else ClaimFrom(q, start, offset + 1, id)
  }

  function Claim(p: Pool, id: LeaseId): (f: Found)
    requires WellFormed(p)
    ensures WellFormed(f.pool) && |f.pool.accounts| == |p.accounts|
  {
    ClaimFrom(p, p.current, 0, id)
  }

  /** The lock file goes unless it names another lease. */
  function Unlock(f: LockFile, id: LeaseId): LockFile {
    if f.Held? && f.lock.leaseId.Some? && f.lock.leaseId.value != id then f else Absent
  }

  function ReleaseLock(p: Pool, i: nat, id: LeaseId): Pool
    requires WellFormed(p) && i < |p.disk|
  {
    p.(disk := p.disk[i := p.disk[i].(lock := Unlock(p.disk[i].lock, id))])
  }

  function Released(ls: seq<Lease>, id: LeaseId): seq<Lease> {
    seq(|ls|, k requires 0 <= k < |ls| => if ls[k].id == id then ls[k].(released := true) else ls[k])
  }

  function Release(p: Pool, i: nat, id: LeaseId): Pool
    requires WellFormed(p) && i < |p.accounts|
  {
    var a := p.accounts[i];
    var freed := if a.leaseId == Some(id) then a.(leasedUntil := None, leaseId := None) else a;
    ReleaseLock(p.(accounts := p.accounts[i := freed], leases := Released(p.leases, id)), i, id)
  }

  // ---- rotation

  function MarkDead(p: Pool, i: nat): Pool
    requires WellFormed(p) && i < |p.accounts|
  {
    p.(accounts := p.accounts[i := p.accounts[i].(dead := true, deadAt := Some(p.now), limitedUntil := None,
                                                  leasedUntil := None, leaseId := None)])
  }

  function SetLimit(p: Pool, i: nat, until: Option<nat>): Pool
    requires WellFormed(p) && i < |p.accounts|
  {
    p.(accounts := p.accounts[i := p.accounts[i].(limitedUntil := until)])
  }

  /** What made the current account fail. */
  datatype Failure = PoolUnavailable | AuthExpired | Limited(until: nat)

  datatype Rotated = Rotated(pool: Pool, ok: bool)

  function Blame(p: Pool, f: Failure): Pool
    requires WellFormed(p) && p.accounts != []
  {
    match f
    case PoolUnavailable => p
    case AuthExpired => MarkDead(p, p.current)
    case Limited(until) => SetLimit(p, p.current, Some(until))
  }

  function Rotate(p: Pool, f: Failure, ignoreLimits: bool): (r: Rotated)
    requires WellFormed(p)
    ensures WellFormed(r.pool) && |r.pool.accounts| == |p.accounts|
    ensures r.pool == p.(accounts := r.pool.accounts, current := r.pool.current)
  {
    if |p.accounts| <= 1 || f.PoolUnavailable? then Rotated(p, false)
    else
      var next := FindNext(Blame(p, f), p.current, ignoreLimits);
      match next.index
      case None => Rotated(next.pool, false)
      case Some(i) => Rotated(SetLimit(next.pool, i, None).(current := i), true)
  }

  function Advance(p: Pool): (q: Pool)
    requires WellFormed(p)
    ensures WellFormed(q) && |q.accounts| == |p.accounts|
    ensures q == p.(accounts := q.accounts, current := q.current)
  {
    if |p.accounts| <= 1 then p
    else
      var next := FindNext(p, p.current, false);
      if next.index.Some? then next.pool.(current := next.index.value) else next.pool
  }

  /** New usage of an account; the current one is left when its weekly limit is exhausted. */
  function UpdateUsage(p: Pool, i: nat, d7: Option<real>): (q: Pool)
    requires WellFormed(p)
    ensures WellFormed(q) && |q.accounts| == |p.accounts|
    ensures q == p.(accounts := q.accounts, current := q.current)
  {
    if i >= |p.accounts| || d7.None? then p
    else
      var noted := p.(accounts := p.accounts[i := p.accounts[i].(d7 := d7)]);
      if i == p.current && d7.value >= 100.0 && |p.accounts| > 1 then
        var next := FindNext(noted, i, false);
        if next.index.Some? && next.index.value != i then next.pool.(current := next.index.value) else next.pool
      else noted
  }

  function MarkHealthy(p: Pool): Pool
    requires WellFormed(p)
  {
    if p.accounts == [] then p
    else
      var a := p.accounts[p.current];
      p.(accounts := p.accounts[p.current := a.(dead := false, deadAt := if a.dead then None else a.deadAt,
                                                limitedUntil := None)])
  }

  function SwitchTo(p: Pool, i: nat): Pool
    requires WellFormed(p)
  {
    if i >= |p.accounts| || i == p.current then p
    else SetLimit(p.(current := i), i, None)
  }

  // ---- what others do to the disk

  /** Another process claims an account by the same rules. */
  function ForeignClaim(p: Pool, i: nat, pid: Pid, id: LeaseId): Pool
    requires WellFormed(p) && i < |p.disk|
  {
    var until := p.now + LEASE_MS;
    p.(disk := p.disk[i := p.disk[i].(lock := Held(Lock(Some(id), Some(pid), Some(until))))],
       leases := p.leases + [Lease(id, i, pid, until, false)])
  }

  // ---- events

  datatype Event =
    | Claims(id: LeaseId)
    | Releases(k: nat)
    | Rotates(failure: Failure, ignoreLimits: bool)
    | Advances
    | UsageKnown(account: nat, d7: Option<real>)
    | Succeeds
    | Switches(account: nat)
    | Passes(ms: nat)
    | AuthRewritten(account: nat)
    | OtherClaims(account: nat, pid: Pid, id: LeaseId)
    | OtherTears(account: nat)
    | Dies(pid: Pid)

  predicate FreshLease(p: Pool, id: LeaseId) {
    forall l :: l in p.leases ==> l.id != id
  }

  predicate Enabled(p: Pool, e: Event) {
    WellFormed(p) &&
    match e
    case Claims(id) => FreshLease(p, id)
    case Releases(k) => k < |p.leases| && p.leases[k].account < |p.accounts|
    case AuthRewritten(i) => i < |p.disk|
    case OtherClaims(i, pid, id) =>
      && i < |p.disk| && pid in p.alive && pid != p.self && pid != 0 && FreshLease(p, id)
      && Acquirable(p, p.disk[i].lock)
    case OtherTears(i) => i < |p.disk| && Acquirable(p, p.disk[i].lock)
    case Dies(pid) => pid != p.self
    case _ => true
  }

  function Step(p: Pool, e: Event): (q: Pool)
    requires Enabled(p, e)
    ensures WellFormed(q) && |q.accounts| == |p.accounts|
  {
    match e
    case Claims(id) => Claim(p, id).pool
    case Releases(k) =>
      var l := p.leases[k];
      if l.pid == p.self then Release(p, l.account, l.id)
      else ReleaseLock(p.(leases := Released(p.leases, l.id)), l.account, l.id)
    case Rotates(f, ignoreLimits) => Rotate(p, f, ignoreLimits).pool
    case Advances => Advance(p)
    case UsageKnown(i, d7) => UpdateUsage(p, i, d7)
    case Succeeds => MarkHealthy(p)
    case Switches(i) => SwitchTo(p, i)
    case Passes(ms) => p.(now := p.now + ms)
    case AuthRewritten(i) => p.(disk := p.disk[i := p.disk[i].(mtime := p.now)])
    case OtherClaims(i, pid, id) => ForeignClaim(p, i, pid, id)
    case OtherTears(i) => p.(disk := p.disk[i := p.disk[i].(lock := Corrupt)])
    case Dies(pid) => p.(alive := p.alive - {pid})
  }

  predicate Runs(p: Pool, es: seq<Event>)
    decreases |es|
  {
    es == [] || (Enabled(p, es[0]) && Runs(Step(p, es[0]), es[1..]))
  }

  function Exec(p: Pool, es: seq<Event>): (q: Pool)
    requires Runs(p, es)
    ensures |q.accounts| == |p.accounts|
    decreases |es|
  {
    if es == [] then p else Exec(Step(p, es[0]), es[1..])
  }
}
