/** Leases: who owns a job, and what an owner can rely on. */
module Leases {
  import opened Wrappers
  import opened Tables
  import opened RowMoves
  import opened RowInvariants

  /** `t` is a write of `worker` to job `id` that was accepted and refreshed its heartbeat. */
  predicate Refreshes(db: Db, t: Txn, worker: WorkerId, id: JobId) {
    id in db.jobs &&
    match Effect(db, t, id)
    case Claim(w, _) => w == worker
    case Begin(w) => w == worker
    case Beat(w) => w == worker
    case Update(w, write, _) => w == worker && write.status.Leased()
    case _ => false
  }

  /** When the worker last refreshed the job's heartbeat, counting `before` the run. */
  function LastRefresh(db: Db, run: seq<Txn>, k: nat, worker: WorkerId, id: JobId, before: int): int
    requires k <= |run|
  {
    if k == 0 then before
    else if Refreshes(StateAt(db, run, k - 1), run[k - 1], worker, id) then StateAt(db, run, k - 1).now
    else LastRefresh(db, run, k - 1, worker, id, before)
  }

  /** Until the job is over, the worker never lets more than `gap` seconds pass between refreshes. */
  predicate Punctual(db: Db, run: seq<Txn>, worker: WorkerId, id: JobId, before: int, gap: int) {
    forall k | 0 <= k <= |run| ::
      var now := StateAt(db, run, k);
      Finished(now, id) || now.now - LastRefresh(db, run, k, worker, id, before) <= gap * SECOND
  }

  /** The owner of a leased row, with its heartbeat at `beat`. */
  predicate LeasedTo(db: Db, id: JobId, worker: WorkerId, beat: int) {
    id in db.jobs && db.jobs[id].worker == Some(worker) && db.jobs[id].heartbeatAt == Some(beat)
  }

  /** One step: a punctual owner stays the owner or the job ends. */
  lemma StepKeepsLease(db: Db, t: Txn, id: JobId, worker: WorkerId, beat: int, gap: int)
    requires DbOk(db) && LeasedTo(db, id, worker, beat) && db.now - beat <= gap * SECOND
    requires t.ClaimJob? && t.id == id ==> gap <= t.leaseTimeout
    ensures Finished(Commit(db, t), id) ||
            LeasedTo(Commit(db, t), id, worker, if Refreshes(db, t, worker, id) then db.now else beat)
    ensures t.ClaimJob? && t.id == id ==> !ClaimAccepted(db, id, t.leaseTimeout)
  {
    if t.ClaimJob? && t.id == id {
      assert t.leaseTimeout * SECOND >= gap * SECOND;
    }
    StepMovesRow(db, t, id);
    StepCounters(db, t);
  }

  lemma {:induction false} PunctualOwnerKeepsLease(
      db: Db, run: seq<Txn>, k: nat, id: JobId, worker: WorkerId, beat: int, gap: int)
    requires DbOk(db) && LeasedTo(db, id, worker, beat) && k <= |run|
    requires Punctual(db, run, worker, id, beat, gap)
    requires forall i | 0 <= i < |run| :: run[i].ClaimJob? && run[i].id == id ==> gap <= run[i].leaseTimeout
    ensures DbOk(StateAt(db, run, k))
    ensures Finished(StateAt(db, run, k), id) ||
            LeasedTo(StateAt(db, run, k), id, worker, LastRefresh(db, run, k, worker, id, beat))
  {
    RunKeepsDbOk(db, run[..k]);
    if k > 0 {
      PunctualOwnerKeepsLease(db, run, k - 1, id, worker, beat, gap);
      StateAtNext(db, run, k - 1);
      var s, last := StateAt(db, run, k - 1), LastRefresh(db, run, k - 1, worker, id, beat);
      if Finished(s, id) {
        StepKeepsFinished(s, run[k - 1], id);
      } else {
        assert s.now - last <= gap * SECOND;
        StepKeepsLease(s, run[k - 1], id, worker, last, gap);
      }
    } else {
      assert run[..0] == [];
    }
  }

  /**
  A healthy owner is never displaced: while its accepted writes are never further apart
  than every claimant's lease timeout, no claim of the job succeeds, so the owner keeps
  the row until the job is over.
  */
  lemma HealthyOwnerIsNeverDisplaced(db: Db, run: seq<Txn>, id: JobId, worker: WorkerId, beat: int, gap: int)
    requires DbOk(db) && LeasedTo(db, id, worker, beat)
    requires Punctual(db, run, worker, id, beat, gap)
    requires forall i | 0 <= i < |run| :: run[i].ClaimJob? && run[i].id == id ==> gap <= run[i].leaseTimeout
    ensures forall k | 0 <= k < |run| :: run[k].ClaimJob? && run[k].id == id ==>
      !ClaimAccepted(StateAt(db, run, k), id, run[k].leaseTimeout)
    ensures forall k | 0 <= k <= |run| ::
      Finished(StateAt(db, run, k), id) || Owns(StateAt(db, run, k), id, worker)
  {
    forall k | 0 <= k <= |run|
      ensures Finished(StateAt(db, run, k), id) || Owns(StateAt(db, run, k), id, worker)
      ensures k < |run| && run[k].ClaimJob? && run[k].id == id ==>
        !ClaimAccepted(StateAt(db, run, k), id, run[k].leaseTimeout)
    {
      PunctualOwnerKeepsLease(db, run, k, id, worker, beat, gap);
      var s := StateAt(db, run, k);
      if k < |run| && !Finished(s, id) {
        StepKeepsLease(s, run[k], id, worker, LastRefresh(db, run, k, worker, id, beat), gap);
      }
    }
  }

  lemma StepKeepsBeat(db: Db, t: Txn, id: JobId, worker: WorkerId, beat: int)
    requires DbOk(db) && LeasedTo(db, id, worker, beat) && Owns(Commit(db, t), id, worker)
    ensures LeasedTo(Commit(db, t), id, worker, if Refreshes(db, t, worker, id) then db.now else beat)
  {
    StepMovesRow(db, t, id);
  }

  lemma {:induction false} HeartbeatIsLastRefresh(
      db: Db, run: seq<Txn>, k: nat, id: JobId, worker: WorkerId, beat: int)
    requires DbOk(db) && LeasedTo(db, id, worker, beat) && k <= |run|
    requires forall i | 0 <= i <= k :: Owns(StateAt(db, run, i), id, worker)
    ensures DbOk(StateAt(db, run, k))
    ensures LeasedTo(StateAt(db, run, k), id, worker, LastRefresh(db, run, k, worker, id, beat))
  {
    RunKeepsDbOk(db, run[..k]);
    if k > 0 {
      HeartbeatIsLastRefresh(db, run, k - 1, id, worker, beat);
      StateAtNext(db, run, k - 1);
      StepKeepsBeat(StateAt(db, run, k - 1), run[k - 1], id, worker, LastRefresh(db, run, k - 1, worker, id, beat));
    } else {
      assert run[..0] == [];
    }
  }

  lemma ClaimOfLeasedRow(db: Db, id: JobId, owner: WorkerId, beat: int, claimer: WorkerId, timeout: int)
    requires DbOk(db) && LeasedTo(db, id, owner, beat)
    ensures db.now - beat > timeout * SECOND ==>
      var j := Commit(db, ClaimJob(id, claimer, timeout)).jobs[id];
      j.worker == Some(claimer) && j.status == PROCESSING && j.heartbeatAt == Some(db.now)
    ensures db.now - beat <= timeout * SECOND ==> Commit(db, ClaimJob(id, claimer, timeout)) == db
  {}

  /**
  An abandoned job is taken over, and no other: for as long as a worker has owned the job,
  anyone's claim succeeds if and only if the owner's last refreshing write is older than the
  claimant's lease timeout.
  */
  lemma ClaimsFollowSilence(db: Db, run: seq<Txn>, k: nat, id: JobId, owner: WorkerId, beat: int,
                            claimer: WorkerId, timeout: int)
    requires DbOk(db) && LeasedTo(db, id, owner, beat) && k <= |run|
    requires forall i | 0 <= i <= k :: Owns(StateAt(db, run, i), id, owner)
    ensures var s := StateAt(db, run, k);
      var silence, s' := s.now - LastRefresh(db, run, k, owner, id, beat), Commit(s, ClaimJob(id, claimer, timeout));
      && (silence > timeout * SECOND ==>
            id in s'.jobs && s'.jobs[id].worker == Some(claimer) && s'.jobs[id].status == PROCESSING
            && s'.jobs[id].heartbeatAt == Some(s.now))
      && (silence <= timeout * SECOND ==> s' == s)
  {
    HeartbeatIsLastRefresh(db, run, k, id, owner, beat);
    ClaimOfLeasedRow(StateAt(db, run, k), id, owner, LastRefresh(db, run, k, owner, id, beat), claimer, timeout);
  }

  /** The three guarded writes of a worker that is past its claim. */
  predicate OwnedWrite(t: Txn, worker: WorkerId, id: JobId) {
    || (t.BeginAttempt? && t.id == id && t.worker == worker)
    || (t.RefreshLease? && t.id == id && t.worker == worker)
    || (t.UpdateStatus? && t.id == id && t.worker == worker)
  }

  predicate ClaimsAgain(db: Db, t: Txn, worker: WorkerId, id: JobId) {
    t.ClaimJob? && t.id == id && t.worker == worker && ClaimAccepted(db, id, t.leaseTimeout)
  }

  /** Of all moves only its own claim makes a worker the owner. */
  lemma MoveKeepsDisplaced(j: Job, m: Move, now: int, worker: WorkerId)
    requires j.worker != Some(worker) && Allowed(j, m, now) && !(m.Claim? && m.worker == worker)
    ensures Moved(j, m, now).Some? ==> Moved(j, m, now).value.worker != Some(worker)
  {}

  lemma StepKeepsDisplaced(db: Db, t: Txn, worker: WorkerId, id: JobId)
    requires DbOk(db) && !Owns(db, id, worker) && !ClaimsAgain(db, t, worker, id)
    ensures !Owns(Commit(db, t), id, worker)
  {
    if id in db.jobs {
      MoveKeepsDisplaced(db.jobs[id], Effect(db, t, id), db.now, worker);
      StepMovesRow(db, t, id);
    } else {
      StepAddsRow(db, t, id);
    }
  }

  lemma {:induction false} DisplacedStaysOut(db: Db, run: seq<Txn>, k: nat, worker: WorkerId, id: JobId)
    requires DbOk(db) && !Owns(db, id, worker) && k <= |run|
    requires forall i | 0 <= i < |run| :: !ClaimsAgain(StateAt(db, run, i), run[i], worker, id)
    ensures DbOk(StateAt(db, run, k)) && !Owns(StateAt(db, run, k), id, worker)
  {
    RunKeepsDbOk(db, run[..k]);
    if k > 0 {
      DisplacedStaysOut(db, run, k - 1, worker, id);
      StateAtNext(db, run, k - 1);
      StepKeepsDisplaced(StateAt(db, run, k - 1), run[k - 1], worker, id);
    }
  }

  /**
  A worker that lost (or never had) the job writes nothing: until it claims the job again,
  each of its begin, refresh and update calls leaves every table unchanged.
  */
  lemma DisplacedWorkerWritesNothing(db: Db, run: seq<Txn>, worker: WorkerId, id: JobId)
    requires DbOk(db) && !Owns(db, id, worker)
    requires forall i | 0 <= i < |run| :: !ClaimsAgain(StateAt(db, run, i), run[i], worker, id)
    ensures forall k | 0 <= k < |run| :: OwnedWrite(run[k], worker, id) ==>
      StateAt(db, run, k + 1) == StateAt(db, run, k)
  {
    forall k | 0 <= k < |run| && OwnedWrite(run[k], worker, id)
      ensures StateAt(db, run, k + 1) == StateAt(db, run, k)
    {
      DisplacedStaysOut(db, run, k, worker, id);
      StateAtNext(db, run, k);
    }
  }
}
