/**
The transactions seen from one row: each of them does one of eleven things to a row that
exists, and only job creation adds one.
*/
module RowMoves {
  import opened Wrappers
  import opened Tables

  datatype Move =
    | Stay
    | Reown(owner: OwnerId)
    | Cancel(hours: int)
    | OwnerGone
    | Claim(worker: WorkerId, leaseTimeout: int)
    | Begin(worker: WorkerId)
    | Beat(worker: WorkerId)
    | Update(worker: WorkerId, write: WorkerWrite, hours: int)
    | CleanupClaim(claim: ClaimId, claimTimeout: int)
    | CleanupDone(claim: ClaimId)
    | CleanupFailed(claim: ClaimId, error: string)

  /** The guard under which the source performs the move. */
  predicate Allowed(j: Job, m: Move, now: int) {
    match m
    case Stay => true
    case Reown(_) => true
    case Cancel(_) => j.status.Active()
    case OwnerGone => true
    case Claim(_, timeout) => Claimable(j, now, timeout)
    case Begin(w) => j.worker == Some(w) && j.status.Leased()
    case Beat(w) => j.worker == Some(w) && j.status.Leased()
    case Update(w, _, _) => j.worker == Some(w)
    case CleanupClaim(_, timeout) => Cleanable(j, now, timeout)
    case CleanupDone(c) => j.claimId == Some(c)
    case CleanupFailed(c, _) => j.claimId == Some(c)
  }

  /** The row afterwards, or None when the move removes it. */
  function Moved(j: Job, m: Move, now: int): Option<Job> {
    match m
    case Stay => Some(j)
    case Reown(owner) => Some(j.(owner := owner))
    case Cancel(hours) => Some(Cancelled(j).(expiresAt := Retain(j.expiresAt, now, hours)))
    case OwnerGone => if j.deletedAt.Some? then None else Some(AccountDeletedRow(j, now))
    case Claim(w, _) => Some(ClaimedRow(j, w, now))
    case Begin(_) => Some(j.(status := PROCESSING, progress := 10, attempts := j.attempts + 1,
                             heartbeatAt := Some(now), error := None))
    case Beat(_) => Some(j.(heartbeatAt := Some(now)))
    case Update(_, write, hours) => Some(UpdatedRow(j, write, now, hours))
    case CleanupClaim(c, _) => Some(CleanupClaimedRow(j, c, now))
    case CleanupDone(_) =>
      if j.ownerDeletedAt.Some? then None
      else Some(j.(deletedAt := Some(now), claimId := None, claimedAt := None, cleanupError := None))
    case CleanupFailed(_, error) =>
      Some(j.(claimId := None, claimedAt := None, cleanupError := Some(error)))
  }

  /** What transaction `t` does to row `id`. */
  function Effect(db: Db, t: Txn, id: JobId): (m: Move)
    requires id in db.jobs
    ensures Allowed(db.jobs[id], m, db.now)
  {
    var j := db.jobs[id];
    match t
    case Tick(_) => Stay
    case CreateJob(_, _, _) => Stay
    case CancelJob(i, owner, hours) => if i == id && Cancellable(db, i, owner) then Cancel(hours) else Stay
    case Register(user, anonymous) =>
      if user !in db.users && j.owner == anonymous && user != anonymous then Reown(user) else Stay
    case CreateSession(user, anonymous) =>
      if user in db.users && j.owner == anonymous && user != anonymous then Reown(user) else Stay
    case DeleteAccount(user, order) =>
      if user in db.users && Enumerates(order, ActiveJobs(db, user)) && j.owner == user then OwnerGone else Stay
    case ClaimJob(i, w, timeout) => if i == id && ClaimAccepted(db, i, timeout) then Claim(w, timeout) else Stay
    case BeginAttempt(i, w) => if i == id && OwnsLeased(db, i, w) then Begin(w) else Stay
    case RefreshLease(i, w) => if i == id && OwnsLeased(db, i, w) then Beat(w) else Stay
    case UpdateStatus(i, w, write, hours) => if i == id && Owns(db, i, w) then Update(w, write, hours) else Stay
    case ClaimCleanup(ids, size, locked, timeout) =>
      if Selects(db, ids, size, locked, timeout) && id in ids
      then CleanupClaim(db.nextClaim + IndexOf(ids, id), timeout) else Stay
    case CompleteCleanup(i, c) => if i == id && HoldsClaim(db, i, c) then CleanupDone(c) else Stay
    case FailCleanup(i, c, error) => if i == id && HoldsClaim(db, i, c) then CleanupFailed(c, error) else Stay
    case Publish(_, _) => Stay
  }

  predicate IsEffect(db: Db, t: Txn, id: JobId, db': Db)
    requires id in db.jobs
  {
    Moved(db.jobs[id], Effect(db, t, id), db.now) ==
      (if id in db'.jobs then Some(db'.jobs[id]) else None)
  }

  lemma ApiEffect(db: Db, t: Txn, id: JobId)
    requires id in db.jobs
    requires t.Tick? || t.CreateJob? || t.CancelJob? || t.Publish?
             || t.Register? || t.CreateSession? || t.DeleteAccount?
    requires t.CreateJob? ==> db.nextJob != id
    ensures IsEffect(db, t, id, Commit(db, t))
  {}

  lemma WorkerEffect(db: Db, t: Txn, id: JobId)
    requires id in db.jobs
    requires t.ClaimJob? || t.BeginAttempt? || t.RefreshLease? || t.UpdateStatus?
    ensures IsEffect(db, t, id, Commit(db, t))
  {}

  lemma CleanupEffect(db: Db, t: Txn, id: JobId)
    requires id in db.jobs
    requires t.ClaimCleanup? || t.CompleteCleanup? || t.FailCleanup?
    ensures IsEffect(db, t, id, Commit(db, t))
  {}

  /** Every transaction moves every existing row by its effect, and the clock never goes back. */
  lemma StepMovesRow(db: Db, t: Txn, id: JobId)
    requires id in db.jobs && id < db.nextJob
    ensures IsEffect(db, t, id, Commit(db, t))
  {
    if t.ClaimJob? || t.BeginAttempt? || t.RefreshLease? || t.UpdateStatus? {
      WorkerEffect(db, t, id);
    } else if t.ClaimCleanup? || t.CompleteCleanup? || t.FailCleanup? {
      CleanupEffect(db, t, id);
    } else {
      ApiEffect(db, t, id);
    }
  }

  /** A row that was not there before is a new PENDING job under the next number. */
  lemma StepAddsRow(db: Db, t: Txn, id: JobId)
    requires id !in db.jobs
    ensures id in Commit(db, t).jobs ==>
      t.CreateJob? && id == db.nextJob && Commit(db, t).jobs[id] == NewJob(t.owner, t.inputKey)
  {}

  lemma StepCounters(db: Db, t: Txn)
    ensures db.now <= Commit(db, t).now && (!t.Tick? ==> Commit(db, t).now == db.now)
    ensures db.nextJob <= Commit(db, t).nextJob <= db.nextJob + 1
    ensures Commit(db, t).nextJob == db.nextJob ||
            (t.CreateJob? && Commit(db, t).jobs == db.jobs[db.nextJob := NewJob(t.owner, t.inputKey)])
    ensures db.nextClaim <= Commit(db, t).nextClaim
  {}
}
