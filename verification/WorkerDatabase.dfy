/** The worker's database calls, statement by statement (worker/database.py). */
module WorkerDatabase {
  import opened Wrappers
  import opened Tables
  import opened Store

  /** Normal return, the JobCancelled signal, or any other exception. */
  datatype Outcome = Ok | JobCancelled | Error

  method IsJobCancelled(db: Database, id: JobId) returns (cancelled: bool)
    ensures cancelled <==> IsCancelled(db.Snapshot(), id)
  {
    cancelled := id in db.jobs && db.jobs[id].status == CANCELLED;
  }

  method ClaimJob(db: Database, id: JobId, worker: WorkerId, leaseTimeout: int)
    returns (claimed: bool, status: Option<Status>)
    requires db.Valid()
    modifies db
    ensures db.Valid() && db.history == old(db.history) + [Txn.ClaimJob(id, worker, leaseTimeout)]
    ensures db.Snapshot() == ClaimJobTxn(old(db.Snapshot()), id, worker, leaseTimeout)
    ensures claimed <==> ClaimAccepted(old(db.Snapshot()), id, leaseTimeout)
    ensures status == if id !in old(db.jobs) then None else Some(db.jobs[id].status)
  {
    ghost var before := db.Snapshot();
    claimed := false;
    if id in db.jobs {
      var row := db.jobs[id];
      var stale := row.heartbeatAt.None? || row.heartbeatAt.value < db.now - leaseTimeout * SECOND;
      if row.status == PENDING || (row.status in {PROCESSING, RETRYING} && stale) {
        db.jobs := db.jobs[id := row.(
          status := PROCESSING,
          progress := if row.progress > 10 then row.progress else 10,
          worker := Some(worker),
          startedAt := Some(db.now),
          heartbeatAt := Some(db.now),
          error := None)];
        db.EnqueueJobStatusEvent(id);
        claimed := true;
      }
    }
    status := if id in db.jobs then Some(db.jobs[id].status) else None;
    db.Committed(before, Txn.ClaimJob(id, worker, leaseTimeout));
  }

  /** None is the exception raised when the worker does not own the job. */
  method BeginJobAttempt(db: Database, id: JobId, worker: WorkerId) returns (attempt: Option<nat>)
    requires db.Valid()
    modifies db
    ensures db.Valid() && db.history == old(db.history) + [BeginAttempt(id, worker)]
    ensures db.Snapshot() == BeginAttemptTxn(old(db.Snapshot()), id, worker)
    ensures attempt == if OwnsLeased(old(db.Snapshot()), id, worker) then Some(old(db.jobs)[id].attempts + 1) else None
  {
    ghost var before := db.Snapshot();
    attempt := None;
    if id in db.jobs && db.jobs[id].worker == Some(worker) && db.jobs[id].status in {PROCESSING, RETRYING} {
      var row := db.jobs[id];
      row := row.(status := PROCESSING, progress := 10, attempts := row.attempts + 1);
      row := row.(heartbeatAt := Some(db.now), error := None);
      db.jobs := db.jobs[id := row];
      attempt := Some(row.attempts);
      db.EnqueueJobStatusEvent(id);
    }
    db.Committed(before, BeginAttempt(id, worker));
  }

  method RefreshJobLease(db: Database, id: JobId, worker: WorkerId) returns (refreshed: bool)
    requires db.Valid()
    modifies db
    ensures db.Valid() && db.history == old(db.history) + [RefreshLease(id, worker)]
    ensures db.Snapshot() == RefreshLeaseTxn(old(db.Snapshot()), id, worker)
    ensures refreshed <==> OwnsLeased(old(db.Snapshot()), id, worker)
  {
    ghost var before := db.Snapshot();
    refreshed := id in db.jobs && db.jobs[id].worker == Some(worker) && db.jobs[id].status in {PROCESSING, RETRYING};
    if refreshed {
      db.jobs := db.jobs[id := db.jobs[id].(heartbeatAt := Some(db.now))];
    }
    db.Committed(before, RefreshLease(id, worker));
  }

  /** The owned update; false when it matched no row. */
  method WriteOwnedStatus(db: Database, id: JobId, worker: WorkerId, w: WorkerWrite, hours: int)
    returns (updated: bool)
    requires db.Valid()
    modifies db
    ensures db.Valid() && db.history == old(db.history) + [UpdateStatus(id, worker, w, hours)]
    ensures db.Snapshot() == UpdateStatusTxn(old(db.Snapshot()), id, worker, w, hours)
    ensures updated <==> Owns(old(db.Snapshot()), id, worker)
  {
    ghost var before := db.Snapshot();
    updated := id in db.jobs && db.jobs[id].worker == Some(worker);
    if updated {
      var row := db.jobs[id].(status := w.status, progress := w.progress, error := w.error);
      if w.results.Some? {
        row := row.(results := w.results);
      }
      if w.status in {COMPLETED, FAILED} {
        if row.expiresAt.None? {
          row := row.(expiresAt := Some(db.now + hours * HOUR));
        }
        row := row.(worker := None, heartbeatAt := None);
      } else {
        row := row.(heartbeatAt := Some(db.now));
      }
      db.jobs := db.jobs[id := row];
      db.EnqueueJobStatusEvent(id);
    }
    db.Committed(before, UpdateStatus(id, worker, w, hours));
  }
}
