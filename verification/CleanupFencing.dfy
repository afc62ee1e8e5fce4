/** Storage cleanup over whole runs: fenced claims, one deletion, and the removal of rows. */
module CleanupFencing {
  import opened Wrappers
  import opened Tables
  import opened RowMoves
  import opened RowInvariants

  /** Cleanup claims only jobs that are over, and never a job whose storage is deleted. */
  lemma CleanupClaimsFinishedJobs(start: int, run: seq<Txn>, k: nat, id: JobId)
    requires k < |run| && id in StateAt(EmptyDb(start), run, k).jobs
    requires Effect(StateAt(EmptyDb(start), run, k), run[k], id).CleanupClaim?
    ensures var j := StateAt(EmptyDb(start), run, k).jobs[id];
      j.status.Terminal() && j.worker.None? && j.deletedAt.None?
  {
    EmptyDbOk(start);
    RunKeepsDbOk(EmptyDb(start), run[..k]);
  }

  /** Claim number `c` was handed out, and job `id` does not hold it (any more). */
  predicate Stale(db: Db, id: JobId, c: ClaimId) { c < db.nextClaim && !HoldsClaim(db, id, c) }

  lemma {:induction false} StaleStaysStale(db: Db, run: seq<Txn>, k: nat, id: JobId, c: ClaimId)
    requires DbOk(db) && Stale(db, id, c) && k <= |run|
    ensures DbOk(StateAt(db, run, k)) && Stale(StateAt(db, run, k), id, c)
  {
    RunKeepsDbOk(db, run[..k]);
    if k > 0 {
      StaleStaysStale(db, run, k - 1, id, c);
      StateAtNext(db, run, k - 1);
      var s := StateAt(db, run, k - 1);
      StepCounters(s, run[k - 1]);
      if HoldsClaim(Commit(s, run[k - 1]), id, c) {
        StepKeepsClaim(s, run[k - 1], id);
      }
    }
  }

  /** A claimant whose claim was replaced, completed or failed never writes again with it. */
  lemma StaleClaimantWritesNothing(db: Db, run: seq<Txn>, id: JobId, c: ClaimId)
    requires DbOk(db) && Stale(db, id, c)
    ensures forall k | 0 <= k < |run| ::
      (run[k].CompleteCleanup? || run[k].FailCleanup?) && run[k].id == id && run[k].claim == c ==>
      StateAt(db, run, k + 1) == StateAt(db, run, k)
  {
    forall k | 0 <= k < |run| && (run[k].CompleteCleanup? || run[k].FailCleanup?)
               && run[k].id == id && run[k].claim == c
      ensures StateAt(db, run, k + 1) == StateAt(db, run, k)
    {
      StaleStaysStale(db, run, k, id, c);
      StateAtNext(db, run, k);
    }
  }

  /** Replacing a claim makes the old one stale: the new number is a different one. */
  lemma ReclaimMakesStale(db: Db, t: Txn, id: JobId, c: ClaimId)
    requires DbOk(db) && HoldsClaim(db, id, c) && Effect(db, t, id).CleanupClaim?
    ensures Stale(Commit(db, t), id, c)
  {
    StepMovesRow(db, t, id);
    StepCounters(db, t);
  }

  /** Transaction `t` records the storage of job `id` as deleted. */
  predicate Deletes(db: Db, t: Txn, id: JobId) {
    id in db.jobs && Effect(db, t, id).CleanupDone?
  }

  /** Storage of the job is deleted: the row says so, or the row is gone for good. */
  predicate StorageGone(db: Db, id: JobId, at: int) {
    id < db.nextJob && (id in db.jobs ==> db.jobs[id].deletedAt == Some(at))
  }

  lemma StepKeepsStorageGone(db: Db, t: Txn, id: JobId, at: int)
    requires DbOk(db) && StorageGone(db, id, at)
    ensures StorageGone(Commit(db, t), id, at)
    ensures id in db.jobs ==>
      var m := Effect(db, t, id); !m.CleanupClaim? && !m.CleanupDone? && !m.CleanupFailed?
  {
    StepCounters(db, t);
    if id in db.jobs {
      StepMovesRow(db, t, id);
    } else {
      StepAddsRow(db, t, id);
    }
  }

  lemma {:induction false} StorageStaysGone(db: Db, run: seq<Txn>, k: nat, m: nat, id: JobId)
    requires DbOk(db) && k < m <= |run| && Deletes(StateAt(db, run, k), run[k], id)
    ensures DbOk(StateAt(db, run, m))
    ensures StorageGone(StateAt(db, run, m), id, StateAt(db, run, k).now)
  {
    RunKeepsDbOk(db, run[..m]);
    StateAtNext(db, run, m - 1);
    if m == k + 1 {
      RunKeepsDbOk(db, run[..k]);
      StepMovesRow(StateAt(db, run, k), run[k], id);
      StepCounters(StateAt(db, run, k), run[k]);
    } else {
      StorageStaysGone(db, run, k, m - 1, id);
      StepKeepsStorageGone(StateAt(db, run, m - 1), run[m - 1], id, StateAt(db, run, k).now);
    }
  }

  /**
  The storage of a job is recorded as deleted at most once in a run, by the holder of the
  current claim, on a finished job; afterwards no cleanup transaction touches the job again.
  */
  lemma StorageIsDeletedOnce(db: Db, run: seq<Txn>, id: JobId, k: nat)
    requires DbOk(db) && k < |run| && Deletes(StateAt(db, run, k), run[k], id)
    ensures run[k].CompleteCleanup? && run[k].id == id && HoldsClaim(StateAt(db, run, k), id, run[k].claim)
    ensures StateAt(db, run, k).jobs[id].status.Terminal()
    ensures forall m | k < m < |run| :: id in StateAt(db, run, m).jobs ==>
      var e := Effect(StateAt(db, run, m), run[m], id);
      !e.CleanupClaim? && !e.CleanupDone? && !e.CleanupFailed?
    ensures forall m | 0 <= m < |run| && Deletes(StateAt(db, run, m), run[m], id) :: m == k
  {
    RunKeepsDbOk(db, run[..k]);
    forall m | k < m < |run| && id in StateAt(db, run, m).jobs
      ensures var e := Effect(StateAt(db, run, m), run[m], id);
        !e.CleanupClaim? && !e.CleanupDone? && !e.CleanupFailed?
    {
      StorageStaysGone(db, run, k, m, id);
      StepKeepsStorageGone(StateAt(db, run, m), run[m], id, StateAt(db, run, k).now);
    }
    forall m | 0 <= m < k && Deletes(StateAt(db, run, m), run[m], id)
      ensures false
    {
      StorageStaysGone(db, run, m, k, id);
      StepKeepsStorageGone(StateAt(db, run, k), run[k], id, StateAt(db, run, m).now);
    }
  }

  /**
  Account deletion and cleanup meet exactly: a row leaves the table exactly when the second
  of the two facts (owner deleted, storage deleted) is committed, whichever comes second.
  */
  lemma RowsLeaveWhenBothFactsHold(db: Db, t: Txn, id: JobId)
    requires DbOk(db) && id in db.jobs
    ensures id !in Commit(db, t).jobs <==>
      || (Effect(db, t, id).OwnerGone? && db.jobs[id].deletedAt.Some?)
      || (Effect(db, t, id).CleanupDone? && db.jobs[id].ownerDeletedAt.Some?)
    ensures id in Commit(db, t).jobs ==>
      var j := Commit(db, t).jobs[id]; !(j.ownerDeletedAt.Some? && j.deletedAt.Some?)
  {
    StepMovesRow(db, t, id);
    StepKeepsRows(db, t);
  }

  // ---------------------------------------------------- retention and live claims

  /** The job ends in this step with a retention of so many hours from now. */
  predicate EndsWithRetention(db: Db, t: Txn, id: JobId, hours: int) {
    id in db.jobs && db.jobs[id].status.Active() &&
    match Effect(db, t, id)
    case Cancel(h) => h == hours
    case Update(_, w, h) => h == hours && w.status.Terminal()
    case _ => false
  }

  /** Until its owner deletes the account, the row keeps the expiry it ended with. */
  predicate KeepsExpiry(db: Db, id: JobId, expiry: int) {
    id < db.nextJob &&
    (id in db.jobs ==>
       db.jobs[id].status.Terminal() &&
       (db.jobs[id].ownerDeletedAt.None? ==> db.jobs[id].expiresAt == Some(expiry)))
  }

  lemma StepKeepsExpiry(db: Db, t: Txn, id: JobId, expiry: int)
    requires DbOk(db) && KeepsExpiry(db, id, expiry)
    ensures KeepsExpiry(Commit(db, t), id, expiry)
  {
    StepCounters(db, t);
    if id in db.jobs {
      StepMovesRow(db, t, id);
    } else {
      StepAddsRow(db, t, id);
    }
  }

  lemma EndSetsExpiry(db: Db, t: Txn, id: JobId, hours: int)
    requires DbOk(db) && EndsWithRetention(db, t, id, hours)
    ensures KeepsExpiry(Commit(db, t), id, db.now + hours * HOUR)
  {
    StepCounters(db, t);
    StepMovesRow(db, t, id);
  }

  lemma {:induction false} RunKeepsExpiry(db: Db, run: seq<Txn>, id: JobId, expiry: int)
    requires DbOk(db) && KeepsExpiry(db, id, expiry)
    ensures KeepsExpiry(Run(db, run), id, expiry)
    decreases |run|
  {
    if run != [] {
      StepKeepsDbOk(db, run[0]);
      StepKeepsExpiry(db, run[0], id, expiry);
      RunKeepsExpiry(Commit(db, run[0]), run[1..], id, expiry);
    }
  }

  lemma EndedExpiry(db: Db, t: Txn, later: seq<Txn>, id: JobId, hours: int)
    requires DbOk(db) && EndsWithRetention(db, t, id, hours)
    ensures KeepsExpiry(Run(Commit(db, t), later), id, db.now + hours * HOUR)
  {
    EndSetsExpiry(db, t, id, hours);
    StepKeepsDbOk(db, t);
    RunKeepsExpiry(Commit(db, t), later, id, db.now + hours * HOUR);
  }

  lemma ExpiryIsKept(db: Db, run: seq<Txn>, k: nat, m: nat, id: JobId, hours: int)
    requires DbOk(db) && k < m <= |run| && EndsWithRetention(StateAt(db, run, k), run[k], id, hours)
    ensures DbOk(StateAt(db, run, m)) && KeepsExpiry(StateAt(db, run, m), id, StateAt(db, run, k).now + hours * HOUR)
  {
    RunKeepsDbOk(db, run[..k]);
    RunKeepsDbOk(db, run[..m]);
    EndedExpiry(StateAt(db, run, k), run[k], run[k + 1..m], id, hours);
    StateAtNext(db, run, k);
    StateAtLater(db, run, k + 1, m);
  }

  /**
  Retention is honoured: cleanup claims a finished job no earlier than the configured hours
  after it ended, unless its owner has deleted the account.
  */
  lemma RetentionIsHonoured(db: Db, run: seq<Txn>, k: nat, m: nat, id: JobId, hours: int)
    requires DbOk(db) && k < m < |run| && EndsWithRetention(StateAt(db, run, k), run[k], id, hours)
    requires id in StateAt(db, run, m).jobs && Effect(StateAt(db, run, m), run[m], id).CleanupClaim?
    ensures var later := StateAt(db, run, m);
      later.jobs[id].ownerDeletedAt.Some? || later.now >= StateAt(db, run, k).now + hours * HOUR
  {
    ExpiryIsKept(db, run, k, m, id, hours);
  }

  /** A claim and the time it was made. */
  predicate ClaimedSince(db: Db, id: JobId, c: ClaimId, at: int) {
    HoldsClaim(db, id, c) && db.jobs[id].claimedAt == Some(at)
  }

  predicate EndsClaim(t: Txn, id: JobId, c: ClaimId) {
    (t.CompleteCleanup? || t.FailCleanup?) && t.id == id && t.claim == c
  }

  /** On a claimed row, only the end of the claim and a claim after the timeout touch it. */
  lemma MoveKeepsLiveClaim(j: Job, m: Move, now: int, c: ClaimId, at: int)
    requires RowOk(j, now) && j.claimId == Some(c) && j.claimedAt == Some(at) && Allowed(j, m, now)
    requires !m.CleanupDone? && !m.CleanupFailed? && (m.CleanupClaim? ==> now <= at + m.claimTimeout * MINUTE)
    ensures Moved(j, m, now).Some?
    ensures Moved(j, m, now).value.claimId == Some(c) && Moved(j, m, now).value.claimedAt == Some(at)
  {}

  lemma EffectSparesClaim(db: Db, t: Txn, id: JobId, c: ClaimId, minutes: int)
    requires HoldsClaim(db, id, c) && !EndsClaim(t, id, c) && (t.ClaimCleanup? ==> minutes <= t.claimTimeout)
    ensures var m := Effect(db, t, id);
      !m.CleanupDone? && !m.CleanupFailed? && (m.CleanupClaim? ==> minutes * MINUTE <= m.claimTimeout * MINUTE)
  {}

  lemma StepKeepsLiveClaim(db: Db, t: Txn, id: JobId, c: ClaimId, at: int, minutes: int)
    requires DbOk(db) && ClaimedSince(db, id, c, at) && db.now <= at + minutes * MINUTE
    requires !EndsClaim(t, id, c) && (t.ClaimCleanup? ==> minutes <= t.claimTimeout)
    ensures ClaimedSince(Commit(db, t), id, c, at)
  {
    EffectSparesClaim(db, t, id, c, minutes);
    MoveKeepsLiveClaim(db.jobs[id], Effect(db, t, id), db.now, c, at);
    StepMovesRow(db, t, id);
  }

  /**
  A live claim is not taken away: as long as every claimant's timeout is at least `minutes`
  and that time has not passed since the claim, its holder keeps it until it ends it itself.
  */
  lemma {:induction false} LiveClaimIsKept(db: Db, run: seq<Txn>, k: nat, id: JobId, c: ClaimId, at: int, minutes: int)
    requires DbOk(db) && ClaimedSince(db, id, c, at) && k <= |run|
    requires forall i | 0 <= i < |run| :: run[i].ClaimCleanup? ==> minutes <= run[i].claimTimeout
    requires forall i | 0 <= i < |run| :: !EndsClaim(run[i], id, c)
    requires StateAt(db, run, k).now <= at + minutes * MINUTE
    ensures DbOk(StateAt(db, run, k)) && ClaimedSince(StateAt(db, run, k), id, c, at)
  {
    RunKeepsDbOk(db, run[..k]);
    if k > 0 {
      StateAtNext(db, run, k - 1);
      var s := StateAt(db, run, k - 1);
      StepCounters(s, run[k - 1]);
      LiveClaimIsKept(db, run, k - 1, id, c, at, minutes);
      StepKeepsLiveClaim(s, run[k - 1], id, c, at, minutes);
    } else {
      assert run[..0] == [];
    }
  }
}
