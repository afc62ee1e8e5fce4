/**
That every transaction does its work: column by column, which rows it is for and what it
writes there, and that it touches nothing else.
*/
module AcceptedWrites {
  import opened Wrappers
  import opened Tables
  import opened RowInvariants

  /** All other rows, and everything that is not a row or an event, stay as they are. */
  predicate OnlyRow(db: Db, db': Db, id: JobId) {
    && db'.jobs - {id} == db.jobs - {id} && id in db.jobs
    && db' == db.(jobs := db'.jobs, outbox := db'.outbox)
  }

  predicate Told(db: Db, db': Db, id: JobId) { db'.outbox == db.outbox + [Event(JobStatus, id, false, 0)] }

  // ------------------------------------------------------------------- worker

  /** A waiting job, or one whose owner was silent for longer than the timeout, is taken over. */
  lemma ClaimTakesOver(db: Db, id: JobId, worker: WorkerId, timeout: int)
    requires id in db.jobs
    requires var j := db.jobs[id];
      || j.status == PENDING
      || (j.status in {PROCESSING, RETRYING}
          && (j.heartbeatAt.None? || j.heartbeatAt.value < db.now - timeout * 1_000_000))
    ensures var j, db' := db.jobs[id], Commit(db, ClaimJob(id, worker, timeout));
      && OnlyRow(db, db', id) && Told(db, db', id) && id in db'.jobs
      && db'.jobs[id] == j.(status := PROCESSING, progress := if j.progress >= 10 then j.progress else 10,
                            worker := Some(worker), startedAt := Some(db.now), heartbeatAt := Some(db.now),
                            error := None)
  {}

  /** Every other claim changes nothing. */
  lemma ClaimIsRefused(db: Db, id: JobId, worker: WorkerId, timeout: int)
    requires id in db.jobs ==>
      var j := db.jobs[id];
      || j.status in {COMPLETED, FAILED, CANCELLED}
      || (j.status in {PROCESSING, RETRYING} && j.heartbeatAt.Some?
          && j.heartbeatAt.value >= db.now - timeout * 1_000_000)
    ensures Commit(db, ClaimJob(id, worker, timeout)) == db
  {}

  /** The owner of a job that is not over begins attempts, refreshes its lease and reports. */
  lemma OwnerWrites(db: Db, id: JobId, worker: WorkerId, w: WorkerWrite, hours: int)
    requires DbOk(db) && id in db.jobs && db.jobs[id].worker == Some(worker)
    ensures var j, db' := db.jobs[id], Commit(db, BeginAttempt(id, worker));
      && OnlyRow(db, db', id) && Told(db, db', id) && id in db'.jobs
      && db'.jobs[id] == j.(status := PROCESSING, progress := 10, attempts := j.attempts + 1,
                            heartbeatAt := Some(db.now), error := None)
    ensures var j, db' := db.jobs[id], Commit(db, RefreshLease(id, worker));
      && OnlyRow(db, db', id) && db'.outbox == db.outbox && id in db'.jobs
      && db'.jobs[id] == j.(heartbeatAt := Some(db.now))
    ensures var j, db' := db.jobs[id], Commit(db, UpdateStatus(id, worker, w, hours));
      && OnlyRow(db, db', id) && Told(db, db', id) && id in db'.jobs
      && (w.status in {PROCESSING, RETRYING} ==>
            db'.jobs[id] == j.(status := w.status, progress := w.progress, error := w.error,
                               heartbeatAt := Some(db.now)))
      && (w.status == COMPLETED ==>
            db'.jobs[id] == j.(status := COMPLETED, progress := 100, results := w.results, error := None,
                               worker := None, heartbeatAt := None, expiresAt := Some(db.now + hours * 3_600_000_000)))
      && (w.status == FAILED ==>
            db'.jobs[id] == j.(status := FAILED, progress := 0, error := w.error, worker := None,
                               heartbeatAt := None, expiresAt := Some(db.now + hours * 3_600_000_000)))
  {
    assert RowOk(db.jobs[id], db.now);
  }

  // ---------------------------------------------------------------------- API

  /** An upload that has no job yet, of an owner below the limit, becomes a waiting job with its event. */
  lemma CreationSucceeds(db: Db, owner: OwnerId, inputKey: ObjectKey, limit: nat)
    requires forall id | id in db.jobs && db.jobs[id].owner == owner :: db.jobs[id].inputKey != inputKey
    requires |set id | id in db.jobs && db.jobs[id].owner == owner
               && db.jobs[id].status in {PENDING, PROCESSING, RETRYING}| < limit
    ensures var db', id := Commit(db, CreateJob(owner, inputKey, limit)), db.nextJob;
      && id in db'.jobs && db'.jobs - {id} == db.jobs - {id} && db'.nextJob == id + 1
      && db'.outbox == db.outbox + [Event(JobCreated, id, false, 0)]
      && db'.jobs[id].owner == owner && db'.jobs[id].inputKey == inputKey && db'.jobs[id].status == PENDING
      && db'.jobs[id].progress == 0 && db'.jobs[id].attempts == 0 && db'.jobs[id].worker.None?
      && db'.jobs[id].results.None? && db'.jobs[id].error.None? && db'.jobs[id].expiresAt.None?
  {
    assert (set id | id in db.jobs && db.jobs[id].owner == owner
              && db.jobs[id].status in {PENDING, PROCESSING, RETRYING}) == ActiveJobs(db, owner);
  }

  /** An upload that has a job, or one of an owner at the limit, changes nothing. */
  lemma CreationIsRefused(db: Db, owner: OwnerId, inputKey: ObjectKey, limit: nat)
    requires
      || (exists id | id in db.jobs :: db.jobs[id].owner == owner && db.jobs[id].inputKey == inputKey)
      || |set id | id in db.jobs && db.jobs[id].owner == owner
                   && db.jobs[id].status in {PENDING, PROCESSING, RETRYING}| >= limit
    ensures Commit(db, CreateJob(owner, inputKey, limit)) == db
  {
    assert (set id | id in db.jobs && db.jobs[id].owner == owner
              && db.jobs[id].status in {PENDING, PROCESSING, RETRYING}) == ActiveJobs(db, owner);
  }

  /** A request for a job that is over, unknown, or someone else's changes nothing. */
  lemma CancellationIsRefused(db: Db, id: JobId, owner: OwnerId, hours: int)
    requires id in db.jobs ==> db.jobs[id].owner != owner || db.jobs[id].status in {COMPLETED, FAILED, CANCELLED}
    ensures Commit(db, CancelJob(id, owner, hours)) == db
  {}

  /** A job that is not over is cancelled at its owner's request. */
  lemma CancellationSucceeds(db: Db, id: JobId, hours: int)
    requires DbOk(db) && id in db.jobs && db.jobs[id].status in {PENDING, PROCESSING, RETRYING}
    ensures var j, db' := db.jobs[id], Commit(db, CancelJob(id, db.jobs[id].owner, hours));
      && OnlyRow(db, db', id) && Told(db, db', id) && id in db'.jobs
      && db'.jobs[id] == j.(status := CANCELLED, worker := None, heartbeatAt := None, error := None,
                            expiresAt := Some(db.now + hours * 3_600_000_000))
  {
    assert RowOk(db.jobs[id], db.now);
  }

  /** A login or registration that succeeds moves every job of the anonymous owner to the account. */
  lemma AdoptionSucceeds(db: Db, user: OwnerId, anonymous: OwnerId, id: JobId)
    requires id in db.jobs && user != anonymous
    ensures
      var t := if user in db.users then CreateSession(user, anonymous) else Register(user, anonymous);
      var db' := Commit(db, t);
      && user in db'.users && id in db'.jobs && db'.outbox == db.outbox
      && (db.jobs[id].owner == anonymous ==> db'.jobs[id] == db.jobs[id].(owner := user))
      && (db.jobs[id].owner != anonymous ==> db'.jobs[id] == db.jobs[id])
  {}

  /** Deleting an account, row by row: what is active is cancelled, everything expires, what is cleaned leaves. */
  lemma DeletionSucceeds(db: Db, user: OwnerId, order: seq<JobId>, id: JobId)
    requires user in db.users && id in db.jobs && Enumerates(order, ActiveJobs(db, user))
    ensures var j, db' := db.jobs[id], Commit(db, DeleteAccount(user, order));
      && user !in db'.users
      && (j.owner != user ==> id in db'.jobs && db'.jobs[id] == j)
      && (j.owner == user && j.deletedAt.Some? ==> id !in db'.jobs)
      && (j.owner == user && j.deletedAt.None? ==>
            && id in db'.jobs
            && db'.jobs[id].ownerDeletedAt == Some(db.now) && db'.jobs[id].expiresAt == Some(db.now)
            && (j.status in {PENDING, PROCESSING, RETRYING} ==>
                  db'.jobs[id].status == CANCELLED && Event(JobStatus, id, false, 0) in db'.outbox)
            && (j.status in {COMPLETED, FAILED, CANCELLED} ==> db'.jobs[id].status == j.status))
  {
    var db' := Commit(db, DeleteAccount(user, order));
    if db.jobs[id].owner == user && db.jobs[id].status in {PENDING, PROCESSING, RETRYING} {
      assert id in ActiveJobs(db, user);
      var i :| 0 <= i < |order| && order[i] == id;
      assert db'.outbox[|db.outbox| + i] == Event(JobStatus, id, false, 0);
    }
  }

  // ------------------------------------------------------------------ cleanup

  /**
  An expired job that no cleaner holds, or holds for longer than the timeout, is claimed by
  any claim that has room left; otherwise only jobs that expired no later take its place.
  */
  lemma ExpiredJobIsClaimed(db: Db, ids: seq<JobId>, batchSize: nat, locked: set<JobId>, timeout: int, id: JobId)
    requires Selects(db, ids, batchSize, locked, timeout) && id in db.jobs && id !in locked
    requires var j := db.jobs[id];
      && j.expiresAt.Some? && j.expiresAt.value <= db.now && j.deletedAt.None?
      && (j.claimedAt.Some? ==> j.claimedAt.value < db.now - timeout * 60_000_000)
    ensures var j, db' := db.jobs[id], Commit(db, ClaimCleanup(ids, batchSize, locked, timeout));
      || (&& id in db'.jobs && db'.jobs[id].claimId.Some? && db.nextClaim <= db'.jobs[id].claimId.value < db'.nextClaim
          && db'.jobs[id].claimedAt == Some(db.now) && db'.jobs[id].cleanupAttempts == j.cleanupAttempts + 1)
      || (|ids| == batchSize && forall i | i in ids :: i in db.jobs && db.jobs[i].expiresAt.Some?
                                  && db.jobs[i].expiresAt.value <= j.expiresAt.value)
  {
    assert id in CleanableJobs(db, locked, timeout);
    if id !in ids {
      forall i | i in ids
        ensures i in db.jobs && db.jobs[i].expiresAt.Some? && db.jobs[i].expiresAt.value <= db.jobs[id].expiresAt.value
      {
        var k :| 0 <= k < |ids| && ids[k] == i;
        assert i in CleanableJobs(db, locked, timeout);
      }
    }
  }

  /** The holder of a cleanup claim records the deletion or gives the claim back. */
  lemma HolderEndsClaim(db: Db, id: JobId, claim: ClaimId, error: string)
    requires id in db.jobs && db.jobs[id].claimId == Some(claim)
    ensures var j, db' := db.jobs[id], Commit(db, CompleteCleanup(id, claim));
      && db'.jobs - {id} == db.jobs - {id} && db'.outbox == db.outbox
      && (j.ownerDeletedAt.Some? ==> id !in db'.jobs)
      && (j.ownerDeletedAt.None? ==>
            && id in db'.jobs
            && db'.jobs[id] == j.(deletedAt := Some(db.now), claimId := None, claimedAt := None, cleanupError := None))
    ensures var j, db' := db.jobs[id], Commit(db, FailCleanup(id, claim, error));
      && OnlyRow(db, db', id) && db'.outbox == db.outbox && id in db'.jobs
      && db'.jobs[id] == j.(claimId := None, claimedAt := None, cleanupError := Some(error))
  {}

  // ------------------------------------------------------------------- outbox

  /** A publisher's commit marks the rows it sent, counts the failed ones, and changes nothing else. */
  lemma PublishingMarks(db: Db, sent: set<nat>, failed: set<nat>, i: nat)
    requires i < |db.outbox|
    ensures var db' := Commit(db, Publish(sent, failed));
      && db' == db.(outbox := db'.outbox) && |db'.outbox| == |db.outbox|
      && (i in sent ==> db'.outbox[i] == db.outbox[i].(published := true))
      && (i in failed && i !in sent ==> db'.outbox[i] == db.outbox[i].(attempts := db.outbox[i].attempts + 1))
      && (i !in sent + failed ==> db'.outbox[i] == db.outbox[i])
  {}
}
