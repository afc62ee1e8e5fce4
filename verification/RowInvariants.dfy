/**
What every run of transactions keeps, whoever issues them and in whatever order:
the shape of a job row, terminal states that never change, and the meeting of
account deletion with storage cleanup.
*/
module RowInvariants {
  import opened Wrappers
  import opened Tables
  import opened RowMoves

  /** Status, lease, progress, results and error of a row fit together. */
  predicate ShapeOk(j: Job) {
    && (j.worker.Some? <==> j.status.Leased())
    && (j.heartbeatAt.Some? <==> j.status.Leased())
    && (j.results.Some? <==> j.status.COMPLETED?)
    && (j.error.Some? <==> j.status.RETRYING? || j.status.FAILED?)
    && (j.status.PENDING? || j.status.FAILED? ==> j.progress == 0)
    && (j.status.PROCESSING? ==> 10 <= j.progress <= 99)
    && (j.status.RETRYING? ==> j.progress == 10)
    && (j.status.COMPLETED? ==> j.progress == 100)
    && (j.status.CANCELLED? ==> 0 <= j.progress <= 99)
  }

  /** Retention, cleanup claim and account deletion of a row fit together. */
  predicate StorageOk(j: Job, now: int) {
    && (j.expiresAt.Some? <==> j.status.Terminal())
    && (j.heartbeatAt.Some? ==> j.heartbeatAt.value <= now)
    && (j.claimId.Some? <==> j.claimedAt.Some?)
    && (j.claimId.Some? ==> j.expiresAt.Some? && j.expiresAt.value <= now && j.deletedAt.None?)
    && (j.deletedAt.Some? ==> j.expiresAt.Some? && j.expiresAt.value <= j.deletedAt.value <= now)
    && (j.ownerDeletedAt.Some? ==> j.expiresAt.Some? && j.expiresAt.value <= now && j.deletedAt.None?)
  }

  predicate RowOk(j: Job, now: int) { ShapeOk(j) && StorageOk(j, now) }

  predicate RowsOk(db: Db) {
    forall id | id in db.jobs :: RowOk(db.jobs[id], db.now) && id < db.nextJob
  }

  /** Claim ids in the table are spent numbers, and no two rows hold the same one. */
  predicate ClaimsOk(db: Db) {
    && (forall id | id in db.jobs && db.jobs[id].claimId.Some? :: db.jobs[id].claimId.value < db.nextClaim)
    && (forall a, b | a in db.jobs && b in db.jobs && a != b ::
          db.jobs[a].claimId.Some? ==> db.jobs[a].claimId != db.jobs[b].claimId)
  }

  predicate DbOk(db: Db) { RowsOk(db) && ClaimsOk(db) }

  lemma EmptyDbOk(now: int)
    ensures DbOk(EmptyDb(now))
  {}

  /** Row by row: every allowed rewriting of a good row is a good row. */
  lemma MoveKeepsRow(j: Job, m: Move, now: int)
    requires RowOk(j, now) && Allowed(j, m, now)
    ensures Moved(j, m, now).Some? ==> RowOk(Moved(j, m, now).value, now)
  {}

  lemma TimeKeepsRow(j: Job, now: int, later: int)
    requires RowOk(j, now) && now <= later
    ensures RowOk(j, later)
  {}

  lemma StepKeepsRows(db: Db, t: Txn)
    requires RowsOk(db)
    ensures RowsOk(Commit(db, t))
  {
    var db' := Commit(db, t);
    StepCounters(db, t);
    forall id | id in db'.jobs
      ensures RowOk(db'.jobs[id], db'.now) && id < db'.nextJob
    {
      if id in db.jobs {
        StepMovesRow(db, t, id);
        MoveKeepsRow(db.jobs[id], Effect(db, t, id), db.now);
        TimeKeepsRow(db'.jobs[id], db.now, db'.now);
      } else {
        StepAddsRow(db, t, id);
      }
    }
  }

  /** Of all moves only a cleanup claim brings a claim id into a row. */
  lemma MoveKeepsClaim(j: Job, m: Move, now: int)
    requires RowOk(j, now) && Moved(j, m, now).Some? && Moved(j, m, now).value.claimId.Some?
    ensures m.CleanupClaim? ==> Moved(j, m, now).value.claimId == Some(m.claim)
    ensures !m.CleanupClaim? ==> Moved(j, m, now).value.claimId == j.claimId
  {}

  lemma EffectOfCleanupClaim(db: Db, t: Txn, id: JobId)
    requires id in db.jobs && Effect(db, t, id).CleanupClaim?
    ensures t.ClaimCleanup? && id in t.ids
    ensures Effect(db, t, id).claim == db.nextClaim + IndexOf(t.ids, id) < Commit(db, t).nextClaim
  {}

  /** A claim id that a row holds was there before, or was just drawn from the counter. */
  lemma StepKeepsClaim(db: Db, t: Txn, id: JobId)
    requires DbOk(db) && id in Commit(db, t).jobs && Commit(db, t).jobs[id].claimId.Some?
    ensures id in db.jobs
    ensures var c := Commit(db, t).jobs[id].claimId.value;
      || (db.jobs[id].claimId == Some(c) && c < db.nextClaim)
      || (t.ClaimCleanup? && id in t.ids && c == db.nextClaim + IndexOf(t.ids, id) < Commit(db, t).nextClaim)
  {
    if id in db.jobs {
      StepMovesRow(db, t, id);
      MoveKeepsClaim(db.jobs[id], Effect(db, t, id), db.now);
      if Effect(db, t, id).CleanupClaim? {
        EffectOfCleanupClaim(db, t, id);
      }
    } else {
      StepAddsRow(db, t, id);
    }
  }

  lemma StepKeepsClaimsApart(db: Db, t: Txn, a: JobId, b: JobId)
    requires DbOk(db) && a in Commit(db, t).jobs && b in Commit(db, t).jobs && a != b
    requires Commit(db, t).jobs[a].claimId.Some?
    ensures Commit(db, t).jobs[a].claimId != Commit(db, t).jobs[b].claimId
  {
    StepKeepsClaim(db, t, a);
    if Commit(db, t).jobs[b].claimId.Some? {
      StepKeepsClaim(db, t, b);
    }
  }

  lemma StepKeepsClaims(db: Db, t: Txn)
    requires DbOk(db)
    ensures ClaimsOk(Commit(db, t))
  {
    var db' := Commit(db, t);
    StepCounters(db, t);
    forall id | id in db'.jobs && db'.jobs[id].claimId.Some?
      ensures db'.jobs[id].claimId.value < db'.nextClaim
    {
      StepKeepsClaim(db, t, id);
    }
    forall a, b | a in db'.jobs && b in db'.jobs && a != b && db'.jobs[a].claimId.Some?
      ensures db'.jobs[a].claimId != db'.jobs[b].claimId
    {
      StepKeepsClaimsApart(db, t, a, b);
    }
  }

  lemma StepKeepsDbOk(db: Db, t: Txn)
    requires DbOk(db)
    ensures DbOk(Commit(db, t))
  {
    StepKeepsRows(db, t);
    StepKeepsClaims(db, t);
  }

  /** The row-shape and storage invariants hold after every run. */
  lemma {:induction false} RunKeepsDbOk(db: Db, run: seq<Txn>)
    requires DbOk(db)
    ensures DbOk(Run(db, run))
    decreases |run|
  {
    if run != [] {
      StepKeepsDbOk(db, run[0]);
      RunKeepsDbOk(Commit(db, run[0]), run[1..]);
    }
  }

  // ------------------------------------------------------- terminal states

  /** Everything a client sees of a finished job. */
  predicate SameOutcome(a: Job, b: Job) {
    && a.status == b.status && a.progress == b.progress
    && a.results == b.results && a.error == b.error
    && a.worker == b.worker && a.attempts == b.attempts && a.inputKey == b.inputKey
  }

  /** The job ended with the outcome of `j`, or its row is gone for good. */
  predicate Keeps(db: Db, id: JobId, j: Job) {
    id < db.nextJob && (id in db.jobs ==> SameOutcome(j, db.jobs[id]))
  }

  lemma StepKeepsOutcome(db: Db, t: Txn, id: JobId, j: Job)
    requires RowsOk(db) && j.status.Terminal() && Keeps(db, id, j)
    ensures Keeps(Commit(db, t), id, j)
  {
    StepCounters(db, t);
    if id in db.jobs {
      StepMovesRow(db, t, id);
    } else {
      StepAddsRow(db, t, id);
    }
  }

  /** Terminal states are absorbing: no later transaction of anyone changes the outcome. */
  lemma {:induction false} TerminalIsAbsorbing(db: Db, run: seq<Txn>, id: JobId, j: Job)
    requires DbOk(db) && j.status.Terminal() && Keeps(db, id, j)
    ensures Keeps(Run(db, run), id, j)
    decreases |run|
  {
    if run != [] {
      StepKeepsDbOk(db, run[0]);
      StepKeepsOutcome(db, run[0], id, j);
      TerminalIsAbsorbing(Commit(db, run[0]), run[1..], id, j);
    }
  }

  /** Cancellation sticks: after an accepted cancellation the job is CANCELLED as long as it exists. */
  lemma CancellationSticks(db: Db, id: JobId, owner: OwnerId, hours: int, run: seq<Txn>)
    requires DbOk(db) && Cancellable(db, id, owner)
    ensures var later := Run(CancelJobTxn(db, id, owner, hours), run);
      id in later.jobs ==>
        var j := later.jobs[id];
        j.status.CANCELLED? && j.error.None? && j.results.None? && j.worker.None? && j.progress == db.jobs[id].progress
  {
    var cancel := CancelJob(id, owner, hours);
    StepKeepsDbOk(db, cancel);
    var db' := CancelJobTxn(db, id, owner, hours);
    TerminalIsAbsorbing(db', run, id, db'.jobs[id]);
  }

  /** The job is over: its row is terminal, or was removed and the id never comes back. */
  predicate Finished(db: Db, id: JobId) {
    id < db.nextJob && (id in db.jobs ==> db.jobs[id].status.Terminal())
  }

  lemma StepKeepsFinished(db: Db, t: Txn, id: JobId)
    requires RowsOk(db) && Finished(db, id)
    ensures Finished(Commit(db, t), id)
  {
    if id in db.jobs {
      StepKeepsOutcome(db, t, id, db.jobs[id]);
    } else {
      StepAddsRow(db, t, id);
      StepCounters(db, t);
    }
  }

  lemma {:induction false} FinishedIsStable(db: Db, run: seq<Txn>, id: JobId)
    requires DbOk(db) && Finished(db, id)
    ensures Finished(Run(db, run), id)
    decreases |run|
  {
    if run != [] {
      StepKeepsDbOk(db, run[0]);
      StepKeepsFinished(db, run[0], id);
      FinishedIsStable(Commit(db, run[0]), run[1..], id);
    }
  }
}
